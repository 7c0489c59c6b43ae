/** The candidate rows each dimension loader derives from the cleaned frame. */
module Dimensions {
  import opened Common
  import opened Cleaner
  import opened Tables

  /** The non-key columns of `dim_customers`. */
  datatype Customer = Customer(gender: Cell, age: Cell)

  /** The non-key columns of `dim_dates`. */
  datatype DateAttrs = DateAttrs(year: int, quarter: int, month: int, day: int, dayOfWeek: string)

  /** A selection of columns from every row, as `df[cols].values.tolist()`. */
  function Project<T, K, A>(s: seq<T>, f: T -> (K, A)): seq<(K, A)>
  {
    seq(|s|, i requires 0 <= i < |s| => f(s[i]))
  }

  lemma KeysOfProject<T, K, A>(s: seq<T>, f: T -> (K, A))
    ensures KeysOf(Project(s, f)) == set x | x in s :: f(x).0
  {
    var b := Project(s, f);
    forall k | k in KeysOf(b) ensures k in set x | x in s :: f(x).0 {
      var i :| 0 <= i < |b| && b[i].0 == k;
      assert s[i] in s;
    }
    forall k | k in (set x | x in s :: f(x).0) ensures k in KeysOf(b) {
      var x :| x in s && f(x).0 == k;
      var i :| 0 <= i < |s| && s[i] == x;
      assert b[i].0 == k;
    }
  }

  lemma ProjectAppend<T, K, A>(a: seq<T>, b: seq<T>, f: T -> (K, A))
    ensures Project(a + b, f) == Project(a, f) + Project(b, f)
  {
  }

  // ---------------------------------------------------------------------
  // Customers

  predicate HasCustomer(r: CleanRow)
  {
    !IsNull(r.customerId) && !IsNull(r.customerGender) && !IsNull(r.customerAge)
  }

  function CustomerTuple(r: CleanRow): (Cell, Customer)
  {
    (r.customerId, Customer(r.customerGender, r.customerAge))
  }

  /** `dropna` on the three customer columns, then those columns of each
      remaining row, in frame order (duplicates kept). */
  function CustomerRows(df: seq<CleanRow>): seq<(Cell, Customer)>
  {
    Project(Filter(df, HasCustomer), CustomerTuple)
  }

  /** The customer batch mentions exactly the ids of rows with a complete
      customer, so no null id is ever upserted; each tuple is some row's
      customer columns. */
  lemma CustomerRowsExact(df: seq<CleanRow>)
    ensures KeysOf(CustomerRows(df)) == set r | r in df && HasCustomer(r) :: r.customerId
    ensures forall i :: 0 <= i < |CustomerRows(df)| ==>
              !IsNull(CustomerRows(df)[i].0) &&
              exists r :: r in df && HasCustomer(r) && CustomerRows(df)[i] == CustomerTuple(r)
  {
    var kept := Filter(df, HasCustomer);
    KeysOfProject(kept, CustomerTuple);
    forall r ensures r in kept <==> r in df && HasCustomer(r) {
      FilterMembers(df, HasCustomer, r);
    }
    forall i | 0 <= i < |CustomerRows(df)|
      ensures exists r :: r in df && HasCustomer(r) && CustomerRows(df)[i] == CustomerTuple(r)
    {
      assert kept[i] in kept;
    }
  }

  /** Rows contribute to the customer batch independently and in order. */
  lemma CustomerRowsAppend(a: seq<CleanRow>, b: seq<CleanRow>)
    ensures CustomerRows(a + b) == CustomerRows(a) + CustomerRows(b)
  {
    FilterAppend(a, b, HasCustomer);
    ProjectAppend(Filter(a, HasCustomer), Filter(b, HasCustomer), CustomerTuple);
  }

  // ---------------------------------------------------------------------
  // Products

  /** A product key the loader may write: both parts present and the name
      not the placeholder. */
  predicate IsProductKey(k: (Cell, Cell))
  {
    !IsNull(k.0) && !IsNull(k.1) && k.1 != Text(Unknown)
  }

  /** A row that contributes its (category, name) pair as a product key. */
  predicate IsProduct(r: CleanRow)
  {
    IsProductKey((r.productCategory, r.productName))
  }

  /** The set of (category, name) pairs of rows whose name is not the
      placeholder and whose category and name are present. Being a set, it
      holds each pair once. */
  function ProductCandidates(df: seq<CleanRow>): (s: set<(Cell, Cell)>)
    ensures forall k :: k in s ==> IsProductKey(k)
    ensures forall r :: r in df && IsProduct(r) ==> (r.productCategory, r.productName) in s
  {
    set r | r in df && IsProduct(r) :: (r.productCategory, r.productName)
  }

  /** `l` lists the elements of `s`, each once: what `list(set)` yields. */
  ghost predicate IsListing<T>(l: seq<T>, s: set<T>)
  {
    && (forall i :: 0 <= i < |l| ==> l[i] in s)
    && (forall x :: x in s ==> x in l)
    && (forall i, j :: 0 <= i < j < |l| ==> l[i] != l[j])
  }

  /** Python's `list(set)`: the elements in an order the model leaves open. */
  method ListOf<T(==)>(s: set<T>) returns (l: seq<T>)
    ensures IsListing(l, s)
  {
    l := [];
    var rest := s;
    while rest != {}
      invariant rest <= s
      invariant forall i :: 0 <= i < |l| ==> l[i] in s && l[i] !in rest
      invariant forall x :: x in s ==> x in rest || x in l
      invariant forall i, j :: 0 <= i < j < |l| ==> l[i] != l[j]
      decreases |rest|
    {
      var x :| x in rest;
      l := l + [x];
      rest := rest - {x};
    }
  }

  /** The product batch: one tuple per listed pair; products have no
      non-key columns. */
  function ProductTuples(l: seq<(Cell, Cell)>): seq<((Cell, Cell), ())>
  {
    seq(|l|, i requires 0 <= i < |l| => (l[i], ()))
  }

  /** Whatever order the set is listed in, the batch mentions exactly the
      candidate pairs and never the same pair twice. */
  lemma ProductTuplesKeys(l: seq<(Cell, Cell)>, s: set<(Cell, Cell)>)
    requires IsListing(l, s)
    ensures KeysOf(ProductTuples(l)) == s
    ensures forall i, j :: 0 <= i < j < |ProductTuples(l)| ==>
              ProductTuples(l)[i].0 != ProductTuples(l)[j].0
  {
    var b := ProductTuples(l);
    assert forall i :: 0 <= i < |l| ==> b[i].0 == l[i];
    forall k | k in s ensures k in KeysOf(b) {
      var i :| 0 <= i < |l| && l[i] == k;
      assert b[i].0 == k;
    }
  }

  /** The candidates of two frames together are those of each. */
  lemma ProductCandidatesAppend(a: seq<CleanRow>, b: seq<CleanRow>)
    ensures ProductCandidates(a + b) == ProductCandidates(a) + ProductCandidates(b)
  {
    forall k | k in ProductCandidates(a + b) ensures k in ProductCandidates(a) + ProductCandidates(b) {
      var r :| r in a + b && IsProduct(r) && k == (r.productCategory, r.productName);
      assert r in a || r in b;
    }
  }

  // ---------------------------------------------------------------------
  // Dates

  /** The calendar quarter of a month: month `m` lies in the three months
      ending with month `3 * q`. Python's `//` and Dafny's `/` agree for
      every month, the divisor 3 being positive. */
  function Quarter(month: int): (q: int)
    ensures 1 <= month <= 12 ==> 1 <= q <= 4 && 3 * (q - 1) < month <= 3 * q
  {
    (month - 1) / 3 + 1
  }

  lemma QuarterExamples()
    ensures Quarter(1) == 1 && Quarter(3) == 1 && Quarter(4) == 2 && Quarter(12) == 4
  {
  }

  predicate HasDate(r: CleanRow)
  {
    r.purchaseDate.Some?
  }

  /** A `dim_dates` tuple: year, quarter, month, day and weekday name of the date. */
  function DateTuple(r: CleanRow, weekday: Date -> string): (Date, DateAttrs)
    requires HasDate(r)
  {
    var d := r.purchaseDate.value;
    (d, DateAttrs(d.year, Quarter(d.month), d.month, d.day, weekday(d)))
  }

  /** One tuple per row with a date, in frame order (duplicates kept). The
      loader's second `to_datetime` call is the identity on the cleaner's
      already-coerced date column, so it does not appear here. */
  function DateRows(df: seq<CleanRow>, weekday: Date -> string): seq<(Date, DateAttrs)>
  {
    var kept := Filter(df, HasDate);
    seq(|kept|, i requires 0 <= i < |kept| => DateTuple(kept[i], weekday))
  }

  /** Every row with a date contributes one tuple and a row with no date
      none; each tuple copies year, month and day from its date and has the
      quarter the month lies in. */
  lemma DateRowsExact(df: seq<CleanRow>, weekday: Date -> string)
    ensures |DateRows(df, weekday)| == |Filter(df, HasDate)|
    ensures KeysOf(DateRows(df, weekday)) == set r | r in df && HasDate(r) :: r.purchaseDate.value
    ensures forall i :: 0 <= i < |DateRows(df, weekday)| ==>
              var (d, a) := DateRows(df, weekday)[i];
              && a.year == d.year && a.month == d.month && a.day == d.day
              && a.dayOfWeek == weekday(d)
              && (MonthInRange(d) ==> 1 <= a.quarter <= 4 && 3 * (a.quarter - 1) < d.month <= 3 * a.quarter)
  {
    var kept := Filter(df, HasDate);
    var b := DateRows(df, weekday);
    forall r ensures r in kept <==> r in df && HasDate(r) {
      FilterMembers(df, HasDate, r);
    }
    forall k | k in KeysOf(b) ensures k in set r | r in df && HasDate(r) :: r.purchaseDate.value {
      var i :| 0 <= i < |b| && b[i].0 == k;
      assert kept[i] in kept;
    }
    forall k | k in (set r | r in df && HasDate(r) :: r.purchaseDate.value) ensures k in KeysOf(b) {
      var r :| r in df && HasDate(r) && r.purchaseDate.value == k;
      assert r in kept;
      var i :| 0 <= i < |kept| && kept[i] == r;
      assert b[i].0 == k;
    }
  }

  /** Rows contribute to the date batch independently and in order. */
  lemma DateRowsAppend(a: seq<CleanRow>, b: seq<CleanRow>, weekday: Date -> string)
    ensures DateRows(a + b, weekday) == DateRows(a, weekday) + DateRows(b, weekday)
  {
    FilterAppend(a, b, HasDate);
  }

  // ---------------------------------------------------------------------
  // Payment methods and shipping regions

  predicate HasPayment(r: CleanRow)
  {
    !IsNull(r.paymentMethod)
  }

  function PaymentTuple(r: CleanRow): (Cell, ())
  {
    (r.paymentMethod, ())
  }

  /** `dropna` on the payment method, then that column (duplicates kept). */
  function PaymentRows(df: seq<CleanRow>): seq<(Cell, ())>
  {
    Project(Filter(df, HasPayment), PaymentTuple)
  }

  /** The batch mentions exactly the present payment methods. */
  lemma PaymentRowsExact(df: seq<CleanRow>)
    ensures KeysOf(PaymentRows(df)) == set r | r in df && !IsNull(r.paymentMethod) :: r.paymentMethod
  {
    KeysOfProject(Filter(df, HasPayment), PaymentTuple);
    forall r ensures r in Filter(df, HasPayment) <==> r in df && HasPayment(r) {
      FilterMembers(df, HasPayment, r);
    }
  }

  /** Rows contribute to the payment batch independently and in order. */
  lemma PaymentRowsAppend(a: seq<CleanRow>, b: seq<CleanRow>)
    ensures PaymentRows(a + b) == PaymentRows(a) + PaymentRows(b)
  {
    FilterAppend(a, b, HasPayment);
    ProjectAppend(Filter(a, HasPayment), Filter(b, HasPayment), PaymentTuple);
  }

  predicate HasRegion(r: CleanRow)
  {
    !IsNull(r.shippingRegion)
  }

  function RegionTuple(r: CleanRow): (Cell, ())
  {
    (r.shippingRegion, ())
  }

  /** `dropna` on the shipping region, then that column (duplicates kept). */
  function RegionRows(df: seq<CleanRow>): seq<(Cell, ())>
  {
    Project(Filter(df, HasRegion), RegionTuple)
  }

  /** The batch mentions exactly the present shipping regions. */
  lemma RegionRowsExact(df: seq<CleanRow>)
    ensures KeysOf(RegionRows(df)) == set r | r in df && !IsNull(r.shippingRegion) :: r.shippingRegion
  {
    KeysOfProject(Filter(df, HasRegion), RegionTuple);
    forall r ensures r in Filter(df, HasRegion) <==> r in df && HasRegion(r) {
      FilterMembers(df, HasRegion, r);
    }
  }

  /** Rows contribute to the region batch independently and in order. */
  lemma RegionRowsAppend(a: seq<CleanRow>, b: seq<CleanRow>)
    ensures RegionRows(a + b) == RegionRows(a) + RegionRows(b)
  {
    FilterAppend(a, b, HasRegion);
    ProjectAppend(Filter(a, HasRegion), Filter(b, HasRegion), RegionTuple);
  }
}
