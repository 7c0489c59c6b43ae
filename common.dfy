/** Values shared by every stage of the ETL: table cells, calendar dates,
    the library parsers the pipeline relies on, and a sequence filter. */
module Common {

  datatype Option<T> = None | Some(value: T)

  /** One value of a table row. `Nan` is the data frame's missing-value
      marker, `Null` is SQL NULL (Python None); the other two are the values
      a column can hold when present. */
  datatype Cell = Nan | Null | Text(s: string) | Num(n: int)

  /** pandas `isna` / `isnull`: true of both NaN and None. */
  predicate IsNull(c: Cell)
  {
    c.Nan? || c.Null?
  }

  /** The placeholder the cleaner writes into missing text columns. */
  const Unknown: string := "Desconocido"

  /** A calendar date as the year, month and day fields of a timestamp. */
  datatype Date = Date(year: int, month: int, day: int)

  /** The month of a date is one of the twelve; day bounds are not assumed. */
  predicate MonthInRange(d: Date)
  {
    1 <= d.month <= 12
  }

  /** A value `to_numeric` can produce for a measure: a finite number, or
      positive or negative infinity (from strings such as `"inf"`). Measures
      are integers in this model; NaN is a failed conversion. */
  datatype Number = Finite(n: int) | Infinite(positive: bool)

  /** The library conversions the pipeline calls, left uninterpreted:
      `date` is `to_datetime(..., format='%d/%m/%y', errors='coerce')` on one
      non-missing cell, `number` is `to_numeric(..., errors='coerce')` on a
      string, `integer` is Python's `int()` on a string, and `weekday` is
      `strftime('%A')`. A `None` result is a failed conversion. */
  datatype Parsers = Parsers(
    date: Cell -> Option<Date>,
    number: string -> Option<Number>,
    integer: string -> Option<int>,
    weekday: Date -> string)

  /** Date coercion: a missing cell becomes NaT (None), anything else is parsed. */
  function ToDatetime(c: Cell, p: Parsers): Option<Date>
  {
    if IsNull(c) then None else p.date(c)
  }

  /** Numeric coercion: numbers pass through, strings are parsed, a missing
      cell stays missing. */
  function ToNumeric(c: Cell, p: Parsers): Option<Number>
  {
    match c
    case Num(n) => Some(Finite(n))
    case Text(s) => p.number(s)
    case _ => None
  }

  /** Python's `int(x)`: None when it would raise. */
  function ToInt(c: Cell, p: Parsers): Option<int>
  {
    match c
    case Num(n) => Some(n)
    case Text(s) => p.integer(s)
    case _ => None
  }

  /** Python's `int(x)` on a coerced measure: an infinity raises
      `OverflowError`, shown as None. */
  function NumberToInt(x: Number): (r: Option<int>)
    ensures r.Some? <==> x.Finite?
    ensures x.Finite? ==> r.value == x.n
  {
    match x
    case Finite(n) => Some(n)
    case Infinite(_) => None
  }

  /** Order-preserving filter, as a boolean mask over data frame rows. */
  function Filter<T(==)>(s: seq<T>, keep: T -> bool): (r: seq<T>)
    ensures |r| <= |s|
    ensures forall i :: 0 <= i < |r| ==> r[i] in s && keep(r[i])
    ensures forall i :: 0 <= i < |s| && keep(s[i]) ==> s[i] in r
    decreases |s|
  {
    if s == [] then [] else (if keep(s[0]) then [s[0]] else []) + Filter(s[1..], keep)
  }

  lemma {:induction false} FilterAppend<T>(a: seq<T>, b: seq<T>, keep: T -> bool)
    ensures Filter(a + b, keep) == Filter(a, keep) + Filter(b, keep)
    decreases |a|
  {
    if a == [] {
      assert a + b == b;
    } else {
      assert (a + b)[1..] == a[1..] + b;
      FilterAppend(a[1..], b, keep);
    }
  }

  /** Membership in a filtered sequence. */
  lemma FilterMembers<T>(s: seq<T>, keep: T -> bool, x: T)
    ensures x in Filter(s, keep) <==> x in s && keep(x)
  {
    if x in Filter(s, keep) {
      var i :| 0 <= i < |Filter(s, keep)| && Filter(s, keep)[i] == x;
    }
    if x in s && keep(x) {
      var i :| 0 <= i < |s| && s[i] == x;
    }
  }

  /** A filter every element passes keeps the whole sequence. */
  lemma {:induction false} FilterAll<T>(s: seq<T>, keep: T -> bool)
    requires forall x :: x in s ==> keep(x)
    ensures Filter(s, keep) == s
    decreases |s|
  {
    if s != [] {
      assert s[0] in s;
      assert forall x :: x in s[1..] ==> x in s;
      FilterAll(s[1..], keep);
    }
  }
}
