/** The fact loader's loop: resolving each cleaned row against the
    dimension lookup maps and building the batch for `fact_orders`. */
module Facts {
  import opened Common
  import opened Cleaner

  /** The non-key columns of a `fact_orders` row. */
  datatype Fact = Fact(dateId: nat, customerId: int, productId: nat, paymentId: nat,
                       regionId: nat, price: Number, quantity: int, total: Number)

  /** The four maps read from the dimensions before the loop: date, (category,
      name), payment method and region, each to its surrogate id. There is no
      customer map: the customer id is written as it is. */
  datatype Lookups = Lookups(dates: map<Date, nat>, products: map<(Cell, Cell), nat>,
                             payments: map<Cell, nat>, regions: map<Cell, nat>)

  /** What the loop does with one row: skip it, raise (an `int()` conversion
      of its order id, customer id or quantity failed), or emit one tuple
      keyed by the order id. `float()` of a measure never raises. */
  datatype Step = Skip | Raise | Emit(orderId: int, fact: Fact)

  /** The row has a date and all four of its lookups succeed. */
  predicate Resolves(r: CleanRow, lk: Lookups)
  {
    && r.purchaseDate.Some?
    && r.purchaseDate.value in lk.dates
    && (r.productCategory, r.productName) in lk.products
    && r.paymentMethod in lk.payments
    && r.shippingRegion in lk.regions
  }

  function Resolve(r: CleanRow, lk: Lookups, p: Parsers): Step
  {
    if !Resolves(r, lk) then Skip
    else
      var o := ToInt(r.orderId, p);
      var c := ToInt(r.customerId, p);
      var q := NumberToInt(r.quantity);
      if o.None? || c.None? || q.None? then Raise
      else
        Emit(o.value, Fact(lk.dates[r.purchaseDate.value], c.value,
                           lk.products[(r.productCategory, r.productName)],
                           lk.payments[r.paymentMethod], lk.regions[r.shippingRegion],
                           r.productPrice, q.value, r.orderTotal))
  }

  /** The loop's accumulators: the `values` list and the `skipped_rows` counter. */
  datatype Batch = Batch(values: seq<(int, Fact)>, skipped: nat)

  /** The accumulators after the loop has run over `df`, or None when it
      raised. Every row is either counted as skipped or appended, so the two
      add up to the number of rows. */
  function FactBatch(df: seq<CleanRow>, lk: Lookups, p: Parsers): (r: Option<Batch>)
    ensures r.Some? ==> |r.value.values| + r.value.skipped == |df|
    decreases |df|
  {
    if df == [] then Some(Batch([], 0))
    else Advance(FactBatch(df[..|df| - 1], lk, p), Resolve(df[|df| - 1], lk, p))
  }

  /** One pass of the loop body on the accumulators. */
  function Advance(acc: Option<Batch>, s: Step): (r: Option<Batch>)
    ensures r.Some? ==> acc.Some? && |r.value.values| + r.value.skipped == |acc.value.values| + acc.value.skipped + 1
  {
    match acc
    case None => None
    case Some(b) =>
      match s
      case Skip => Some(Batch(b.values, b.skipped + 1))
      case Raise => None
      case Emit(o, f) => Some(Batch(b.values + [(o, f)], b.skipped))
  }

  /** How a row is classified: it is skipped exactly when its date is null
      or one of its four lookups misses; otherwise the loop raises exactly
      when its order id or customer id is not an integer or its quantity is
      infinite, and else emits a tuple whose ids are the maps' values at its
      keys and whose measures are its own. */
  lemma ResolveCases(r: CleanRow, lk: Lookups, p: Parsers)
    ensures Resolve(r, lk, p) == Skip <==>
              r.purchaseDate.None? || r.purchaseDate.value !in lk.dates ||
              (r.productCategory, r.productName) !in lk.products ||
              r.paymentMethod !in lk.payments || r.shippingRegion !in lk.regions
    ensures Resolve(r, lk, p) == Raise <==>
              Resolves(r, lk) &&
              (ToInt(r.orderId, p).None? || ToInt(r.customerId, p).None? || r.quantity.Infinite?)
    ensures Resolve(r, lk, p).Emit? ==>
              var f := Resolve(r, lk, p).fact;
              && Resolves(r, lk)
              && Some(Resolve(r, lk, p).orderId) == ToInt(r.orderId, p)
              && Some(f.customerId) == ToInt(r.customerId, p)
              && f.dateId == lk.dates[r.purchaseDate.value]
              && f.productId == lk.products[(r.productCategory, r.productName)]
              && f.paymentId == lk.payments[r.paymentMethod]
              && f.regionId == lk.regions[r.shippingRegion]
              && f.price == r.productPrice && Finite(f.quantity) == r.quantity && f.total == r.orderTotal
  {
  }

  /** Running the loop on two frames one after the other: it raises if it
      raises on either, and otherwise the tuples follow input order and the
      skip counts add. */
  function Combine(x: Option<Batch>, y: Option<Batch>): Option<Batch>
  {
    if x.None? || y.None? then None
    else Some(Batch(x.value.values + y.value.values, x.value.skipped + y.value.skipped))
  }

  /** Rows are handled independently and in order. */
  lemma {:induction false} FactBatchAppend(a: seq<CleanRow>, c: seq<CleanRow>, lk: Lookups, p: Parsers)
    ensures FactBatch(a + c, lk, p) == Combine(FactBatch(a, lk, p), FactBatch(c, lk, p))
    decreases |c|
  {
    if c == [] {
      assert a + c == a;
      var x := FactBatch(a, lk, p);
      if x.Some? {
        assert x.value.values + [] == x.value.values;
      }
    } else {
      var n := |c| - 1;
      assert (a + c)[..|a + c| - 1] == a + c[..n];
      assert (a + c)[|a + c| - 1] == c[n];
      FactBatchAppend(a, c[..n], lk, p);
      AdvanceCombine(FactBatch(a, lk, p), FactBatch(c[..n], lk, p), Resolve(c[n], lk, p));
    }
  }

  lemma AdvanceCombine(x: Option<Batch>, y: Option<Batch>, s: Step)
    ensures Advance(Combine(x, y), s) == Combine(x, Advance(y, s))
  {
    if x.Some? && y.Some? && s.Emit? {
      assert x.value.values + y.value.values + [(s.orderId, s.fact)]
          == x.value.values + (y.value.values + [(s.orderId, s.fact)]);
    }
  }

  /** The loop raises exactly when some row's step raises. */
  lemma {:induction false} FactBatchRaises(df: seq<CleanRow>, lk: Lookups, p: Parsers)
    ensures FactBatch(df, lk, p).None? <==> exists i :: 0 <= i < |df| && Resolve(df[i], lk, p) == Raise
    decreases |df|
  {
    if df != [] {
      var n := |df| - 1;
      var pre := df[..n];
      FactBatchRaises(pre, lk, p);
      if exists i :: 0 <= i < |pre| && Resolve(pre[i], lk, p) == Raise {
        var i :| 0 <= i < |pre| && Resolve(pre[i], lk, p) == Raise;
        assert df[i] == pre[i];
      }
      if exists i :: 0 <= i < |df| && Resolve(df[i], lk, p) == Raise {
        var i :| 0 <= i < |df| && Resolve(df[i], lk, p) == Raise;
        if i < n {
          assert pre[i] == df[i];
        }
      }
    }
  }

  /** Every tuple of the batch is the one some row emitted: its ids are
      values of the lookup maps, so a written fact only references date,
      product, payment and region rows that exist. */
  lemma {:induction false} FactBatchSound(df: seq<CleanRow>, lk: Lookups, p: Parsers)
    requires FactBatch(df, lk, p).Some?
    ensures forall j :: 0 <= j < |FactBatch(df, lk, p).value.values| ==>
              var (o, f) := FactBatch(df, lk, p).value.values[j];
              && (exists i :: 0 <= i < |df| && Resolve(df[i], lk, p) == Emit(o, f))
              && f.dateId in lk.dates.Values && f.productId in lk.products.Values
              && f.paymentId in lk.payments.Values && f.regionId in lk.regions.Values
    decreases |df|
  {
    if df != [] {
      var n := |df| - 1;
      var pre := df[..n];
      FactBatchSound(pre, lk, p);
      var vs := FactBatch(df, lk, p).value.values;
      var ps := FactBatch(pre, lk, p).value.values;
      forall j | 0 <= j < |vs|
        ensures var (o, f) := vs[j];
          && (exists i :: 0 <= i < |df| && Resolve(df[i], lk, p) == Emit(o, f))
          && f.dateId in lk.dates.Values && f.productId in lk.products.Values
          && f.paymentId in lk.payments.Values && f.regionId in lk.regions.Values
      {
        var (o, f) := vs[j];
        if j < |ps| {
          assert vs[j] == ps[j];
          var i :| 0 <= i < |pre| && Resolve(pre[i], lk, p) == Emit(o, f);
          assert df[i] == pre[i];
        } else {
          var r := df[n];
          assert Resolve(r, lk, p) == Emit(o, f);
          assert lk.dates[r.purchaseDate.value] in lk.dates.Values;
          assert lk.products[(r.productCategory, r.productName)] in lk.products.Values;
          assert lk.payments[r.paymentMethod] in lk.payments.Values;
          assert lk.regions[r.shippingRegion] in lk.regions.Values;
        }
      }
    }
  }

  /** The loop of the fact loader, with its `values` list and `skipped_rows`
      counter; `raised` reports an `int()` conversion that raised (a
      `ValueError` on an id or an `OverflowError` on an infinite quantity),
      which ends the loop. */
  method BuildFactValues(df: seq<CleanRow>, lk: Lookups, p: Parsers)
    returns (values: seq<(int, Fact)>, skipped: nat, raised: bool)
    ensures raised <==> FactBatch(df, lk, p).None?
    ensures !raised ==> FactBatch(df, lk, p) == Some(Batch(values, skipped))
  {
    values := [];
    skipped := 0;
    raised := false;
    var i := 0;
    while i < |df|
      invariant 0 <= i <= |df|
      invariant FactBatch(df[..i], lk, p) == Some(Batch(values, skipped))
    {
      var row := df[i];
      assert df[..i + 1][..i] == df[..i];
      if !Resolves(row, lk) {
        skipped := skipped + 1;
        i := i + 1;
        continue;
      }
      var orderId := ToInt(row.orderId, p);
      var customerId := ToInt(row.customerId, p);
      var quantity := NumberToInt(row.quantity);
      if orderId.None? || customerId.None? || quantity.None? {
        raised := true;
        FactBatchAppend(df[..i + 1], df[i + 1..], lk, p);
        assert df[..i + 1] + df[i + 1..] == df;
        return;
      }
      values := values + [(orderId.value,
                           Fact(lk.dates[row.purchaseDate.value], customerId.value,
                                lk.products[(row.productCategory, row.productName)],
                                lk.payments[row.paymentMethod], lk.regions[row.shippingRegion],
                                row.productPrice, quantity.value, row.orderTotal))];
      i := i + 1;
    }
    assert df[..i] == df;
  }
}
