/** The star-schema store and the eight load steps that run against it. */
module Warehouse {
  import opened Common
  import opened Staging
  import opened Cleaner
  import opened Tables
  import opened Dimensions
  import opened Facts

  /** How a loader's transaction ended. */
  datatype Outcome = Committed | NothingToInsert | RolledBack

  /** A fact references date, product, payment and region rows that exist.
      The customer id is not checked: the loader never looks it up. */
  ghost predicate References(f: Fact, dates: Dim<Date, DateAttrs>, products: Dim<(Cell, Cell), ()>,
                             payments: Dim<Cell, ()>, regions: Dim<Cell, ()>)
  {
    && HasId(dates, f.dateId)
    && HasId(products, f.productId)
    && HasId(payments, f.paymentId)
    && HasId(regions, f.regionId)
  }

  /** The warehouse: the staging table, the five dimensions and the fact
      table, each as the tuples it holds. */
  class Store {
    var staging: seq<seq<Cell>>
    var customers: map<Cell, Customer>
    var products: Dim<(Cell, Cell), ()>
    var dates: Dim<Date, DateAttrs>
    var payments: Dim<Cell, ()>
    var regions: Dim<Cell, ()>
    var facts: map<int, Fact>

    /** What every load step keeps: staged tuples have their keys and no
        NaN, no dimension has a null key (nor a placeholder product name),
        surrogate ids are distinct, and every fact references existing date,
        product, payment and region rows. */
    ghost predicate Valid()
      reads this
    {
      && StagedTable(staging)
      && (forall k :: k in customers ==> !IsNull(k))
      && DimValid(products) && (forall k :: k in products.rows ==> IsProductKey(k))
      && DimValid(dates)
      && DimValid(payments) && (forall k :: k in payments.rows ==> !IsNull(k))
      && DimValid(regions) && (forall k :: k in regions.rows ==> !IsNull(k))
      && (forall o :: o in facts ==> References(facts[o], dates, products, payments, regions))
    }

    /** An empty warehouse; auto-increment counters start at 1. */
    constructor ()
      ensures Valid()
      ensures staging == [] && customers == map[] && facts == map[]
      ensures products == Dim(map[], 1) && dates == Dim(map[], 1)
      ensures payments == Dim(map[], 1) && regions == Dim(map[], 1)
    {
      staging := [];
      customers := map[];
      products := Dim(map[], 1);
      dates := Dim(map[], 1);
      payments := Dim(map[], 1);
      regions := Dim(map[], 1);
      facts := map[];
    }

    /** The lookup maps the fact loader reads from the four dimensions. */
    function CurrentLookups(): Lookups
      reads this
    {
      Lookups(IdMap(dates), IdMap(products), IdMap(payments), IdMap(regions))
    }

    /** The staging writer. Row `i` of `df` is skipped when a key column is
        missing, and is lost when its own `execute` fails (`i` in
        `failedRows`); the others are appended in order, NaN sent as NULL.
        `abort` is an exception outside the per-row handler: the rollback
        leaves staging as it was. Nothing already staged is removed. */
    method InsertIntoTempTable(df: seq<Row>, failedRows: set<nat>, abort: bool) returns (outcome: Outcome)
      requires Valid()
      modifies this`staging
      ensures Valid()
      ensures staging == if abort then old(staging) else old(staging) + Staged(df, failedRows)
      ensures outcome == if abort then RolledBack else Committed
    {
      var committed := staging;
      var i := 0;
      while i < |df|
        invariant 0 <= i <= |df|
        invariant staging == committed + Staged(df[..i], failedRows)
      {
        var row := df[i];
        assert df[..i + 1][..i] == df[..i];
        if !Admitted(row) {
          i := i + 1;
          continue;
        }
        var values := SqlValues(row);
        if i !in failedRows {
          staging := staging + [values];
        }
        i := i + 1;
      }
      assert df[..i] == df;
      if abort {
        staging := committed;
        outcome := RolledBack;
      } else {
        outcome := Committed;
      }
    }

    /** The cleaner reads back everything in staging, earlier runs included. */
    method CleanAndTransformData(p: Parsers) returns (df: seq<CleanRow>)
      requires Valid()
      ensures df == Clean(StagingFrame(staging), p)
    {
      var rows := StagingFrame(staging);
      df := Clean(rows, p);
    }

    /** Upserts the customer columns of complete rows, keyed by customer id. */
    method InsertIntoDimCustomers(df: seq<CleanRow>, fails: bool) returns (outcome: Outcome)
      requires Valid()
      modifies this`customers
      ensures Valid()
      ensures customers == if fails then old(customers) else Put(old(customers), CustomerRows(df))
      ensures outcome == if fails then RolledBack else Committed
    {
      var values := CustomerRows(df);
      var updated := PutMany(customers, values);
      if fails {
        outcome := RolledBack;
        return;
      }
      PutFacts(customers, values);
      CustomerRowsExact(df);
      customers := updated;
      outcome := Committed;
    }

    /** Upserts the distinct (category, name) pairs, in the set's order;
        with no pair nothing is executed or committed. */
    method InsertIntoDimProducts(df: seq<CleanRow>, fails: bool)
      returns (outcome: Outcome, ghost listed: seq<(Cell, Cell)>)
      requires Valid()
      modifies this`products
      ensures Valid()
      ensures ProductCandidates(df) == {} ==> products == old(products) && outcome == NothingToInsert
      ensures ProductCandidates(df) != {} ==>
                && IsListing(listed, ProductCandidates(df))
                && products == (if fails then old(products) else Upsert(old(products), ProductTuples(listed)))
                && outcome == (if fails then RolledBack else Committed)
    {
      var unique := ProductCandidates(df);
      listed := [];
      if unique == {} {
        outcome := NothingToInsert;
        return;
      }
      var l := ListOf(unique);
      listed := l;
      var updated := UpsertMany(products, ProductTuples(l));
      if fails {
        outcome := RolledBack;
        return;
      }
      ghost var before := products;
      UpsertFacts(products, ProductTuples(l));
      UpsertValid(products, ProductTuples(l));
      ProductTuplesKeys(l, unique);
      products := updated;
      forall o | o in facts ensures References(facts[o], dates, products, payments, regions) {
        UpsertKeepsId(before, ProductTuples(l), facts[o].productId);
      }
      outcome := Committed;
    }

    /** Upserts one tuple per row with a date, keyed by the date. */
    method InsertIntoDimDates(df: seq<CleanRow>, p: Parsers, fails: bool) returns (outcome: Outcome)
      requires Valid()
      modifies this`dates
      ensures Valid()
      ensures dates == if fails then old(dates) else Upsert(old(dates), DateRows(df, p.weekday))
      ensures outcome == if fails then RolledBack else Committed
    {
      var values := DateRows(df, p.weekday);
      var updated := UpsertMany(dates, values);
      if fails {
        outcome := RolledBack;
        return;
      }
      ghost var before := dates;
      UpsertValid(dates, values);
      dates := updated;
      forall o | o in facts ensures References(facts[o], dates, products, payments, regions) {
        UpsertKeepsId(before, values, facts[o].dateId);
      }
      outcome := Committed;
    }

    /** Upserts the present payment methods. */
    method InsertIntoDimPayments(df: seq<CleanRow>, fails: bool) returns (outcome: Outcome)
      requires Valid()
      modifies this`payments
      ensures Valid()
      ensures payments == if fails then old(payments) else Upsert(old(payments), PaymentRows(df))
      ensures outcome == if fails then RolledBack else Committed
    {
      var values := PaymentRows(df);
      var updated := UpsertMany(payments, values);
      if fails {
        outcome := RolledBack;
        return;
      }
      ghost var before := payments;
      UpsertFacts(payments, values);
      UpsertValid(payments, values);
      PaymentRowsExact(df);
      payments := updated;
      forall o | o in facts ensures References(facts[o], dates, products, payments, regions) {
        UpsertKeepsId(before, values, facts[o].paymentId);
      }
      outcome := Committed;
    }

    /** Upserts the present shipping regions. */
    method InsertIntoDimShippingRegions(df: seq<CleanRow>, fails: bool) returns (outcome: Outcome)
      requires Valid()
      modifies this`regions
      ensures Valid()
      ensures regions == if fails then old(regions) else Upsert(old(regions), RegionRows(df))
      ensures outcome == if fails then RolledBack else Committed
    {
      var values := RegionRows(df);
      var updated := UpsertMany(regions, values);
      if fails {
        outcome := RolledBack;
        return;
      }
      ghost var before := regions;
      UpsertFacts(regions, values);
      UpsertValid(regions, values);
      RegionRowsExact(df);
      regions := updated;
      forall o | o in facts ensures References(facts[o], dates, products, payments, regions) {
        UpsertKeepsId(before, values, facts[o].regionId);
      }
      outcome := Committed;
    }

    /** The fact loader: builds the batch against the current dimensions and
        upserts it keyed by order id. An `int()` failure in the loop, or a
        failing batch, rolls back; an empty batch executes nothing. The counts
        reported on commit are the tuples written and the rows skipped. */
    method InsertIntoFactOrders(df: seq<CleanRow>, p: Parsers, fails: bool)
      returns (outcome: Outcome, inserted: nat, skipped: nat)
      requires Valid()
      modifies this`facts
      ensures Valid()
      ensures var batch := FactBatch(df, CurrentLookups(), p);
              && facts == (if batch.Some? && !fails then Put(old(facts), batch.value.values) else old(facts))
              && (batch.None? ==> outcome == RolledBack)
              && (batch.Some? && batch.value.values == [] ==> outcome == NothingToInsert)
              && (batch.Some? && batch.value.values != [] ==> outcome == (if fails then RolledBack else Committed))
              && (outcome == Committed ==>
                    batch.Some? && inserted == |batch.value.values| && skipped == batch.value.skipped &&
                    inserted + skipped == |df|)
    {
      var lk := CurrentLookups();
      var values, skip, raised := BuildFactValues(df, lk, p);
      inserted, skipped := 0, 0;
      if raised {
        outcome := RolledBack;
        return;
      }
      skipped := skip;
      if values == [] {
        outcome := NothingToInsert;
        return;
      }
      if fails {
        outcome := RolledBack;
        return;
      }
      var updated := PutMany(facts, values);
      FactBatchSound(df, lk, p);
      ghost var d, pr, pa, re := dates, products, payments, regions;
      forall j | 0 <= j < |values| ensures References(values[j].1, d, pr, pa, re) {
        IdMapHasId(d, values[j].1.dateId);
        IdMapHasId(pr, values[j].1.productId);
        IdMapHasId(pa, values[j].1.paymentId);
        IdMapHasId(re, values[j].1.regionId);
      }
      ghost var refs := f => References(f, d, pr, pa, re);
      assert forall o :: o in facts ==> refs(facts[o]);
      PutPreserves(facts, values, refs);
      facts := updated;
      outcome := Committed;
      inserted := |values|;
    }
  }

  /** Every cleaned row comes from an admitted staging tuple, so it has its
      order id, customer id and category (its date may still be None when it
      did not parse). With gender and age filled in, every cleaned row has a
      complete customer: the customer loader's `dropna` removes nothing. */
  lemma CleanedRowsHaveKeys(staging: seq<seq<Cell>>, p: Parsers)
    requires StagedTable(staging)
    ensures forall c :: c in Clean(StagingFrame(staging), p) ==>
              !KeyMissing(c.orderId) && !KeyMissing(c.customerId) && !KeyMissing(c.productCategory)
    ensures var c := Clean(StagingFrame(staging), p); Filter(c, HasCustomer) == c
  {
    var rows := StagingFrame(staging);
    var keep := r => Parses(r, p);
    CleanExact(rows, p);
    forall c | c in Clean(rows, p)
      ensures !KeyMissing(c.orderId) && !KeyMissing(c.customerId) && !KeyMissing(c.productCategory)
    {
      var j :| 0 <= j < |Clean(rows, p)| && Clean(rows, p)[j] == c;
      var r := Filter(rows, keep)[j];
      assert r in rows;
      var i :| 0 <= i < |rows| && rows[i] == r;
      assert Admitted(FromColumns(staging[i]));
    }
    FilterAll(Clean(rows, p), HasCustomer);
  }

  /** A cleaned row whose product name is the placeholder never yields a
      fact: no product row has that name, so its lookup misses. */
  lemma PlaceholderProductSkipped(r: CleanRow, products: Dim<(Cell, Cell), ()>, lk: Lookups, p: Parsers)
    requires forall k :: k in products.rows ==> IsProductKey(k)
    requires lk.products == IdMap(products)
    requires r.productName == Text(Unknown)
    ensures Resolve(r, lk, p) == Skip
  {
    assert (r.productCategory, r.productName) !in products.rows;
  }

  // ---------------------------------------------------------------------
  // Running the pipeline a second time on the same file. Staging is
  // append-only: before the first run it may already hold `prior` tuples
  // from earlier runs, the first run appends the file's tuples `s`, and the
  // second run, staging the same tuples, appends `s` again. The first run's
  // loaders therefore see a cleaned frame `P + C` and the second run's
  // `P + C + C`. The lemmas below show that every table ends up exactly as
  // the first run left it.

  /** The two runs' cleaned frames: `P + C` and `P + C + C`. */
  lemma CleanRerun(prior: seq<seq<Cell>>, s: seq<seq<Cell>>, p: Parsers)
    requires StagedTable(prior) && StagedTable(s)
    ensures StagedTable(prior + s) && StagedTable(prior + s + s)
    ensures var pc, cc := Clean(StagingFrame(prior), p), Clean(StagingFrame(s), p);
            && Clean(StagingFrame(prior + s), p) == pc + cc
            && Clean(StagingFrame(prior + s + s), p) == pc + cc + cc
  {
    StagedTableAppend(prior, s);
    StagedTableAppend(prior + s, s);
    assert StagingFrame(prior + s) == StagingFrame(prior) + StagingFrame(s);
    assert StagingFrame(prior + s + s) == StagingFrame(prior + s) + StagingFrame(s);
    CleanAppend(StagingFrame(prior), StagingFrame(s), p);
    CleanAppend(StagingFrame(prior + s), StagingFrame(s), p);
  }

  lemma StagedTableAppend(a: seq<seq<Cell>>, b: seq<seq<Cell>>)
    requires StagedTable(a) && StagedTable(b)
    ensures StagedTable(a + b)
  {
    forall i | 0 <= i < |a + b| ensures StagedTuple((a + b)[i]) {
      if i < |a| {
        assert (a + b)[i] == a[i];
      } else {
        assert (a + b)[i] == b[i - |a|];
      }
    }
  }

  lemma CustomersRerun(m: map<Cell, Customer>, prior: seq<CleanRow>, c: seq<CleanRow>)
    ensures Put(Put(m, CustomerRows(prior + c)), CustomerRows(prior + c + c)) == Put(m, CustomerRows(prior + c))
  {
    CustomerRowsAppend(prior, c);
    CustomerRowsAppend(prior + c, c);
    PutRerun(m, CustomerRows(prior), CustomerRows(c));
  }

  /** Whatever order each run lists the candidate set in. */
  lemma ProductsRerun(t: Dim<(Cell, Cell), ()>, prior: seq<CleanRow>, c: seq<CleanRow>,
                      first: seq<(Cell, Cell)>, second: seq<(Cell, Cell)>)
    requires IsListing(first, ProductCandidates(prior + c))
    requires IsListing(second, ProductCandidates(prior + c + c))
    ensures Upsert(Upsert(t, ProductTuples(first)), ProductTuples(second)) == Upsert(t, ProductTuples(first))
  {
    ProductCandidatesAppend(prior, c);
    ProductCandidatesAppend(prior + c, c);
    ProductTuplesKeys(first, ProductCandidates(prior + c));
    ProductTuplesKeys(second, ProductCandidates(prior + c + c));
    UpsertFacts(t, ProductTuples(first));
    UpsertPresent(Upsert(t, ProductTuples(first)), ProductTuples(second));
  }

  lemma DatesRerun(t: Dim<Date, DateAttrs>, prior: seq<CleanRow>, c: seq<CleanRow>, weekday: Date -> string)
    ensures Upsert(Upsert(t, DateRows(prior + c, weekday)), DateRows(prior + c + c, weekday))
         == Upsert(t, DateRows(prior + c, weekday))
  {
    DateRowsAppend(prior, c, weekday);
    DateRowsAppend(prior + c, c, weekday);
    UpsertRerun(t, DateRows(prior, weekday), DateRows(c, weekday));
  }

  lemma PaymentsRerun(t: Dim<Cell, ()>, prior: seq<CleanRow>, c: seq<CleanRow>)
    ensures Upsert(Upsert(t, PaymentRows(prior + c)), PaymentRows(prior + c + c)) == Upsert(t, PaymentRows(prior + c))
  {
    PaymentRowsAppend(prior, c);
    PaymentRowsAppend(prior + c, c);
    UpsertRerun(t, PaymentRows(prior), PaymentRows(c));
  }

  lemma RegionsRerun(t: Dim<Cell, ()>, prior: seq<CleanRow>, c: seq<CleanRow>)
    ensures Upsert(Upsert(t, RegionRows(prior + c)), RegionRows(prior + c + c)) == Upsert(t, RegionRows(prior + c))
  {
    RegionRowsAppend(prior, c);
    RegionRowsAppend(prior + c, c);
    UpsertRerun(t, RegionRows(prior), RegionRows(c));
  }

  /** With the dimensions unchanged the lookups are the same, so the second
      fact load raises exactly when the first did and otherwise rewrites the
      same facts. */
  lemma FactsRerun(m: map<int, Fact>, prior: seq<CleanRow>, c: seq<CleanRow>, lk: Lookups, p: Parsers)
    ensures FactBatch(prior + c + c, lk, p).Some? <==> FactBatch(prior + c, lk, p).Some?
    ensures FactBatch(prior + c, lk, p).Some? ==>
              var once := FactBatch(prior + c, lk, p).value.values;
              Put(Put(m, once), FactBatch(prior + c + c, lk, p).value.values) == Put(m, once)
  {
    FactBatchAppend(prior, c, lk, p);
    FactBatchAppend(prior + c, c, lk, p);
    if FactBatch(prior + c, lk, p).Some? {
      var vc := FactBatch(c, lk, p).value.values;
      PutRerun(m, FactBatch(prior, lk, p).value.values, vc);
    }
  }
}
