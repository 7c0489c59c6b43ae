/** The cleaner: type coercion and null filling of the staging rows. */
module Cleaner {
  import opened Common
  import opened Staging

  /** A cleaned order: the date is coerced (None stands for NaT) and the
      three measures are numbers, possibly infinite; every other column is a
      cell. */
  datatype CleanRow = CleanRow(
    orderId: Cell, purchaseDate: Option<Date>, customerId: Cell, customerGender: Cell,
    customerAge: Cell, productCategory: Cell, productName: Cell, productPrice: Number,
    quantity: Number, orderTotal: Number, paymentMethod: Cell, shippingRegion: Cell)

  /** A row after the date column and the three measure columns have been
      coerced: an unparseable value is missing. */
  datatype Coerced = Coerced(row: Row, date: Option<Date>, price: Option<Number>,
                             total: Option<Number>, quantity: Option<Number>)

  /** The frame the cleaner builds from the fetched staging tuples. */
  function StagingFrame(staging: seq<seq<Cell>>): (df: seq<Row>)
    requires forall i :: 0 <= i < |staging| ==> |staging[i]| == Width
    ensures |df| == |staging|
  {
    seq(|staging|, i requires 0 <= i < |staging| => FromColumns(staging[i]))
  }

  /** The date column from `%d/%m/%y`, and the price, total and quantity
      columns to numbers, coercing failures to missing. */
  function Coerce(df: seq<Row>, p: Parsers): seq<Coerced>
  {
    seq(|df|, i requires 0 <= i < |df| =>
      Coerced(df[i], ToDatetime(df[i].purchaseDate, p), ToNumeric(df[i].productPrice, p),
              ToNumeric(df[i].orderTotal, p), ToNumeric(df[i].quantity, p)))
  }

  predicate Numeric(c: Coerced)
  {
    c.price.Some? && c.total.Some? && c.quantity.Some?
  }

  /** `dropna(subset=['product_price', 'order_total', 'quantity'])`. */
  function DropNa(frame: seq<Coerced>): (r: seq<Coerced>)
    ensures forall i :: 0 <= i < |r| ==> Numeric(r[i])
  {
    Filter(frame, Numeric)
  }

  function Fill(c: Cell, default: Cell): Cell
  {
    if IsNull(c) then default else c
  }

  /** `fillna` of gender, age, product name and shipping region on one row. */
  function FillNa(c: Coerced): CleanRow
    requires Numeric(c)
  {
    CleanRow(
      c.row.orderId, c.date, c.row.customerId, Fill(c.row.customerGender, Text(Unknown)),
      Fill(c.row.customerAge, Num(0)), c.row.productCategory, Fill(c.row.productName, Text(Unknown)),
      c.price.value, c.quantity.value, c.total.value, c.row.paymentMethod,
      Fill(c.row.shippingRegion, Text(Unknown)))
  }

  function FillAll(frame: seq<Coerced>): seq<CleanRow>
    requires forall i :: 0 <= i < |frame| ==> Numeric(frame[i])
  {
    seq(|frame|, i requires 0 <= i < |frame| => FillNa(frame[i]))
  }

  /** The cleaned frame: coerce, drop rows with an unparseable measure, fill
      defaults. In the result, gender, age, product name and shipping region
      are never missing. */
  function Clean(df: seq<Row>, p: Parsers): (r: seq<CleanRow>)
    ensures |r| <= |df|
    ensures forall i :: 0 <= i < |r| ==>
              !IsNull(r[i].customerGender) && !IsNull(r[i].customerAge) &&
              !IsNull(r[i].productName) && !IsNull(r[i].shippingRegion)
  {
    FillAll(DropNa(Coerce(df, p)))
  }

  /** The row's price, order total and quantity all coerce to numbers. */
  predicate Parses(r: Row, p: Parsers)
  {
    ToNumeric(r.productPrice, p).Some? && ToNumeric(r.orderTotal, p).Some? &&
    ToNumeric(r.quantity, p).Some?
  }

  /** Column by column, what the cleaner makes of a row it keeps: the date
      and measures are coerced, the four defaulted columns take their default
      when missing, and every other column is unchanged. */
  ghost predicate CleanedFrom(c: CleanRow, r: Row, p: Parsers)
  {
    && c.orderId == r.orderId
    && c.customerId == r.customerId
    && c.productCategory == r.productCategory
    && c.paymentMethod == r.paymentMethod
    && c.purchaseDate == ToDatetime(r.purchaseDate, p)
    && Some(c.productPrice) == ToNumeric(r.productPrice, p)
    && Some(c.orderTotal) == ToNumeric(r.orderTotal, p)
    && Some(c.quantity) == ToNumeric(r.quantity, p)
    && (IsNull(r.customerGender) ==> c.customerGender == Text(Unknown))
    && (!IsNull(r.customerGender) ==> c.customerGender == r.customerGender)
    && (IsNull(r.customerAge) ==> c.customerAge == Num(0))
    && (!IsNull(r.customerAge) ==> c.customerAge == r.customerAge)
    && (IsNull(r.productName) ==> c.productName == Text(Unknown))
    && (!IsNull(r.productName) ==> c.productName == r.productName)
    && (IsNull(r.shippingRegion) ==> c.shippingRegion == Text(Unknown))
    && (!IsNull(r.shippingRegion) ==> c.shippingRegion == r.shippingRegion)
  }

  lemma CoerceAppend(a: seq<Row>, b: seq<Row>, p: Parsers)
    ensures Coerce(a + b, p) == Coerce(a, p) + Coerce(b, p)
  {
  }

  lemma FillAllAppend(x: seq<Coerced>, y: seq<Coerced>)
    requires forall i :: 0 <= i < |x| ==> Numeric(x[i])
    requires forall i :: 0 <= i < |y| ==> Numeric(y[i])
    ensures FillAll(x + y) == FillAll(x) + FillAll(y)
  {
  }

  /** The cleaner treats rows independently and keeps their order: cleaning
      two frames one after the other gives the cleaning of their
      concatenation. */
  lemma CleanAppend(a: seq<Row>, b: seq<Row>, p: Parsers)
    ensures Clean(a + b, p) == Clean(a, p) + Clean(b, p)
  {
    CoerceAppend(a, b, p);
    FilterAppend(Coerce(a, p), Coerce(b, p), Numeric);
    FillAllAppend(DropNa(Coerce(a, p)), DropNa(Coerce(b, p)));
  }

  /** A single row is dropped exactly when one of its measures does not
      parse; otherwise it yields one cleaned row, related to it column by
      column as `CleanedFrom` states (an unparseable date becomes None). */
  lemma CleanOne(r: Row, p: Parsers)
    ensures |Clean([r], p)| == (if Parses(r, p) then 1 else 0)
    ensures Parses(r, p) ==> CleanedFrom(Clean([r], p)[0], r, p)
  {
    var c := Coerce([r], p);
    assert c == [Coerced(r, ToDatetime(r.purchaseDate, p), ToNumeric(r.productPrice, p),
                         ToNumeric(r.orderTotal, p), ToNumeric(r.quantity, p))];
    assert c[1..] == [];
  }

  /** Hence: the cleaned frame holds exactly the rows whose measures parse,
      in their original order, each cleaned as `CleanedFrom` states. */
  lemma {:induction false} CleanExact(df: seq<Row>, p: Parsers)
    ensures |Clean(df, p)| == |Filter(df, r => Parses(r, p))|
    ensures forall i :: 0 <= i < |Clean(df, p)| ==>
              CleanedFrom(Clean(df, p)[i], Filter(df, r => Parses(r, p))[i], p)
    decreases |df|
  {
    var keep := r => Parses(r, p);
    if df == [] {
      assert Coerce(df, p) == [];
    } else {
      assert df == [df[0]] + df[1..];
      CleanAppend([df[0]], df[1..], p);
      FilterAppend([df[0]], df[1..], keep);
      CleanOne(df[0], p);
      CleanExact(df[1..], p);
      assert [df[0]][1..] == [];
    }
  }
}
