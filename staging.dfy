/** The staging writer: which raw rows reach `temp_orders`, and in what form. */
module Staging {
  import opened Common

  /** A row of the order file, and of `temp_orders`, by column. */
  datatype Row = Row(
    orderId: Cell, purchaseDate: Cell, customerId: Cell, customerGender: Cell,
    customerAge: Cell, productCategory: Cell, productName: Cell, productPrice: Cell,
    quantity: Cell, orderTotal: Cell, paymentMethod: Cell, shippingRegion: Cell)

  /** The number of columns of `temp_orders`. */
  const Width: nat := 12

  /** The row's values in the column order of the INSERT statement. */
  function Columns(r: Row): (t: seq<Cell>)
    ensures |t| == Width
  {
    [r.orderId, r.purchaseDate, r.customerId, r.customerGender, r.customerAge,
     r.productCategory, r.productName, r.productPrice, r.quantity, r.orderTotal,
     r.paymentMethod, r.shippingRegion]
  }

  /** A fetched tuple named by the same column list, as the cleaner builds its frame. */
  function FromColumns(t: seq<Cell>): Row
    requires |t| == Width
  {
    Row(t[0], t[1], t[2], t[3], t[4], t[5], t[6], t[7], t[8], t[9], t[10], t[11])
  }

  /** A key column is unusable when it is null or the empty string. */
  predicate KeyMissing(c: Cell)
  {
    IsNull(c) || c == Text("")
  }

  /** The row has its order id, purchase date, customer id and category. */
  predicate Admitted(r: Row)
  {
    && !KeyMissing(r.orderId)
    && !KeyMissing(r.purchaseDate)
    && !KeyMissing(r.customerId)
    && !KeyMissing(r.productCategory)
  }

  /** A missing value is sent as SQL NULL. */
  function ToSql(c: Cell): Cell
  {
    if IsNull(c) then Null else c
  }

  /** The parameter list of the row's INSERT. */
  function SqlValues(r: Row): (v: seq<Cell>)
    ensures |v| == Width
  {
    seq(Width, j requires 0 <= j < Width => ToSql(Columns(r)[j]))
  }

  /** What a tuple of `temp_orders` written by the staging writer looks like. */
  ghost predicate StagedTuple(t: seq<Cell>)
  {
    && |t| == Width
    && (forall j :: 0 <= j < |t| ==> !t[j].Nan?)
    && Admitted(FromColumns(t))
  }

  /** The staging table holds only such tuples. */
  ghost predicate StagedTable(s: seq<seq<Cell>>)
    ensures StagedTable(s) ==> forall i :: 0 <= i < |s| ==> |s[i]| == Width
  {
    forall i :: 0 <= i < |s| ==> StagedTuple(s[i])
  }

  /** Every value of the row survives into its parameter list, except that
      a missing one becomes NULL; reading the tuple back as a row gives a row
      with no NaN that agrees with the original wherever it had a value, and
      the key columns an admitted row has are still there. */
  lemma SqlValuesFaithful(r: Row)
    ensures forall j :: 0 <= j < Width ==>
              (IsNull(Columns(r)[j]) ==> SqlValues(r)[j] == Null) &&
              (!IsNull(Columns(r)[j]) ==> SqlValues(r)[j] == Columns(r)[j])
    ensures Columns(FromColumns(SqlValues(r))) == SqlValues(r)
    ensures Admitted(r) ==> StagedTuple(SqlValues(r))
  {
    var v := SqlValues(r);
    assert Columns(FromColumns(v)) == v;
  }

  /** A row with no NaN comes back from staging exactly as it was written. */
  lemma StagingRoundTrip(r: Row)
    requires forall j :: 0 <= j < Width ==> !Columns(r)[j].Nan?
    ensures FromColumns(SqlValues(r)) == r
  {
    SqlValuesFaithful(r);
    assert SqlValues(r) == Columns(r);
  }

  /** The tuples the writer adds to `temp_orders` for a frame, in frame
      order: row `i` is inserted when it is admitted and its own `execute`
      did not fail (`failed` holds the positions whose execute raised). */
  function Staged(df: seq<Row>, failed: set<nat>): (s: seq<seq<Cell>>)
    ensures forall j :: 0 <= j < |s| ==> StagedTuple(s[j])
    decreases |df|
  {
    if df == [] then []
    else
      var i := |df| - 1;
      SqlValuesFaithful(df[i]);
      Staged(df[..i], failed) + (if Admitted(df[i]) && i !in failed then [SqlValues(df[i])] else [])
  }

  /** A tuple is staged exactly when it is the parameter list of an admitted
      row whose execute did not fail. */
  lemma {:induction false} StagedMembers(df: seq<Row>, failed: set<nat>, t: seq<Cell>)
    ensures t in Staged(df, failed) <==>
              exists i :: 0 <= i < |df| && i !in failed && Admitted(df[i]) && t == SqlValues(df[i])
    decreases |df|
  {
    if df != [] {
      var n := |df| - 1;
      var p := df[..n];
      StagedMembers(p, failed, t);
      if t in Staged(df, failed) {
        if t in Staged(p, failed) {
          var i :| 0 <= i < |p| && i !in failed && Admitted(p[i]) && t == SqlValues(p[i]);
          assert df[i] == p[i];
        } else {
          assert Admitted(df[n]) && n !in failed && t == SqlValues(df[n]);
        }
      } else {
        forall i | 0 <= i < |df| && i !in failed && Admitted(df[i])
          ensures t != SqlValues(df[i])
        {
          if i < n {
            assert p[i] == df[i];
          }
        }
      }
    }
  }

  /** Rejected rows and rows whose execute failed are the only ones missing:
      with no failures the writer stages one tuple per admitted row. */
  lemma {:induction false} StagedCount(df: seq<Row>)
    ensures |Staged(df, {})| == |Filter(df, Admitted)|
    decreases |df|
  {
    if df != [] {
      var n := |df| - 1;
      StagedCount(df[..n]);
      assert df == df[..n] + [df[n]];
      FilterAppend(df[..n], [df[n]], Admitted);
    }
  }
}
