/** The store's keyed tables and `INSERT ... ON DUPLICATE KEY UPDATE`.
    A dimension with a surrogate key (products, dates, payment methods,
    shipping regions) is a `Dim`: a map from natural key to its row and an
    auto-increment counter. A table whose primary key is the natural key
    itself (customers, facts) is a plain map. `executemany` of an upsert
    statement applies the batch's tuples one after another. */
module Tables {

  /** A stored dimension row: its surrogate id and its non-key attributes. */
  datatype Entry<A> = Entry(id: nat, attrs: A)

  /** A table with a unique natural key and an auto-increment surrogate key. */
  datatype Dim<K, A> = Dim(rows: map<K, Entry<A>>, next: nat)

  /** The natural keys a batch of tuples mentions. */
  function KeysOf<K, A>(b: seq<(K, A)>): set<K>
  {
    set i | 0 <= i < |b| :: b[i].0
  }

  lemma KeysOfSnoc<K, A>(b: seq<(K, A)>)
    requires b != []
    ensures KeysOf(b) == KeysOf(b[..|b| - 1]) + {b[|b| - 1].0}
  {
    var p := b[..|b| - 1];
    forall k | k in KeysOf(b) ensures k in KeysOf(p) + {b[|b| - 1].0} {
      var i :| 0 <= i < |b| && b[i].0 == k;
      if i < |b| - 1 {
        assert p[i] == b[i];
      }
    }
    forall k | k in KeysOf(p) ensures k in KeysOf(b) {
      var i :| 0 <= i < |p| && p[i].0 == k;
      assert b[i] == p[i];
    }
  }

  /** The value of the last tuple of the batch whose key is `k`. */
  ghost function LastValue<K, A>(b: seq<(K, A)>, k: K): A
    requires k in KeysOf(b)
    decreases |b|
  {
    KeysOfSnoc(b);
    if b[|b| - 1].0 == k then b[|b| - 1].1 else LastValue(b[..|b| - 1], k)
  }

  lemma {:induction false} LastValueAt<K, A>(b: seq<(K, A)>, i: nat)
    requires i < |b|
    requires forall j :: i < j < |b| ==> b[j].0 != b[i].0
    ensures b[i].0 in KeysOf(b) && LastValue(b, b[i].0) == b[i].1
    decreases |b|
  {
    KeysOfSnoc(b);
    if i < |b| - 1 {
      var p := b[..|b| - 1];
      assert p[i] == b[i];
      forall j | i < j < |p| ensures p[j].0 != p[i].0 {
        assert p[j] == b[j];
      }
      LastValueAt(p, i);
    }
  }

  // ---------------------------------------------------------------------
  // Surrogate-keyed dimensions

  /** Ids are below the counter and no two keys share one. */
  ghost predicate DimValid<K, A>(t: Dim<K, A>)
  {
    && (forall k :: k in t.rows ==> t.rows[k].id < t.next)
    && (forall k, k' :: k in t.rows && k' in t.rows && t.rows[k].id == t.rows[k'].id ==> k == k')
  }

  /** Some row of the table carries surrogate id `id`. */
  ghost predicate HasId<K, A>(t: Dim<K, A>, id: nat)
  {
    exists k :: k in t.rows && t.rows[k].id == id
  }

  /** One upsert: an existing key keeps its id and takes the tuple's
      attributes; a new key is inserted with the next id. */
  function UpsertOne<K, A>(t: Dim<K, A>, kv: (K, A)): Dim<K, A>
  {
    if kv.0 in t.rows then Dim(t.rows[kv.0 := Entry(t.rows[kv.0].id, kv.1)], t.next)
    else Dim(t.rows[kv.0 := Entry(t.next, kv.1)], t.next + 1)
  }

  /** A whole batch, applied in order. */
  function Upsert<K, A>(t: Dim<K, A>, b: seq<(K, A)>): Dim<K, A>
    decreases |b|
  {
    if b == [] then t else UpsertOne(Upsert(t, b[..|b| - 1]), b[|b| - 1])
  }

  /** What a batch does to a table: the keys are the old ones plus the
      batch's, an existing key keeps its id, a key the batch leaves alone keeps
      its row, a new key gets an id no earlier row had, every key of the batch
      holds the attributes of its last tuple, and a batch of existing keys
      allocates nothing. */
  lemma {:induction false} UpsertFacts<K, A>(t: Dim<K, A>, b: seq<(K, A)>)
    ensures Upsert(t, b).rows.Keys == t.rows.Keys + KeysOf(b)
    ensures t.next <= Upsert(t, b).next
    ensures KeysOf(b) <= t.rows.Keys ==> Upsert(t, b).next == t.next
    ensures forall k :: k in t.rows ==> Upsert(t, b).rows[k].id == t.rows[k].id
    ensures forall k :: k in t.rows && k !in KeysOf(b) ==> Upsert(t, b).rows[k] == t.rows[k]
    ensures forall k :: k in Upsert(t, b).rows && k !in t.rows ==>
              t.next <= Upsert(t, b).rows[k].id < Upsert(t, b).next
    ensures forall k :: k in KeysOf(b) ==> Upsert(t, b).rows[k].attrs == LastValue(b, k)
    decreases |b|
  {
    if b != [] {
      var p := b[..|b| - 1];
      UpsertFacts(t, p);
      KeysOfSnoc(b);
    }
  }

  /** For a key the batch repeats, the last tuple wins. */
  lemma UpsertLastWins<K, A>(t: Dim<K, A>, b: seq<(K, A)>, i: nat)
    requires i < |b|
    requires forall j :: i < j < |b| ==> b[j].0 != b[i].0
    ensures b[i].0 in Upsert(t, b).rows && Upsert(t, b).rows[b[i].0].attrs == b[i].1
  {
    UpsertFacts(t, b);
    LastValueAt(b, i);
  }

  /** Applying the same batch twice gives the table that applying it once gives. */
  lemma UpsertIdempotent<K, A>(t: Dim<K, A>, b: seq<(K, A)>)
    ensures Upsert(Upsert(t, b), b) == Upsert(t, b)
  {
    var u := Upsert(t, b);
    UpsertFacts(t, b);
    UpsertFacts(u, b);
    var w := Upsert(u, b);
    forall k | k in u.rows ensures w.rows[k] == u.rows[k] {
      if k in KeysOf(b) {
        assert w.rows[k].attrs == LastValue(b, k) == u.rows[k].attrs;
      }
    }
    assert w.rows == u.rows;
  }

  /** A batch split in two is the first part applied, then the second. */
  lemma {:induction false} UpsertAppend<K, A>(t: Dim<K, A>, a: seq<(K, A)>, b: seq<(K, A)>)
    ensures Upsert(t, a + b) == Upsert(Upsert(t, a), b)
    decreases |b|
  {
    if b == [] {
      assert a + b == a;
    } else {
      var n := |b| - 1;
      assert (a + b)[..|a + b| - 1] == a + b[..n];
      assert (a + b)[|a + b| - 1] == b[n];
      UpsertAppend(t, a, b[..n]);
    }
  }

  /** After the batch `a + b`, applying it again followed by
      another copy of `b` changes nothing. */
  lemma UpsertRerun<K, A>(t: Dim<K, A>, a: seq<(K, A)>, b: seq<(K, A)>)
    ensures Upsert(Upsert(t, a + b), a + b + b) == Upsert(t, a + b)
  {
    UpsertAppend(Upsert(t, a + b), a + b, b);
    UpsertIdempotent(t, a + b);
    UpsertAppend(t, a, b);
    UpsertIdempotent(Upsert(t, a), b);
  }

  /** A batch of keys that are all present, in a table with no non-key
      columns, leaves the table as it was. */
  lemma UpsertPresent<K>(t: Dim<K, ()>, b: seq<(K, ())>)
    requires KeysOf(b) <= t.rows.Keys
    ensures Upsert(t, b) == t
  {
    UpsertFacts(t, b);
    var u := Upsert(t, b);
    forall k | k in t.rows ensures u.rows[k] == t.rows[k] {
      var e, e' := u.rows[k], t.rows[k];
      assert e.id == e'.id;
      match (e.attrs, e'.attrs) {
        case ((), ()) =>
      }
    }
    assert u.rows == t.rows;
  }

  lemma UpsertOneValid<K, A>(t: Dim<K, A>, kv: (K, A))
    requires DimValid(t)
    ensures DimValid(UpsertOne(t, kv))
  {
  }

  /** Upserting keeps surrogate ids below the counter and distinct. */
  lemma {:induction false} UpsertValid<K, A>(t: Dim<K, A>, b: seq<(K, A)>)
    requires DimValid(t)
    ensures DimValid(Upsert(t, b))
    decreases |b|
  {
    if b != [] {
      UpsertValid(t, b[..|b| - 1]);
      UpsertOneValid(Upsert(t, b[..|b| - 1]), b[|b| - 1]);
    }
  }

  /** An id some row carries is still carried after an upsert. */
  lemma UpsertKeepsId<K, A>(t: Dim<K, A>, b: seq<(K, A)>, id: nat)
    requires HasId(t, id)
    ensures HasId(Upsert(t, b), id)
  {
    UpsertFacts(t, b);
    var k :| k in t.rows && t.rows[k].id == id;
    assert k in Upsert(t, b).rows && Upsert(t, b).rows[k].id == id;
  }

  /** The table as the pipeline reads it back: natural key to surrogate id. */
  function IdMap<K, A>(t: Dim<K, A>): map<K, nat>
  {
    map k | k in t.rows :: t.rows[k].id
  }

  /** An id read back through the lookup map is one a row carries. */
  lemma IdMapHasId<K, A>(t: Dim<K, A>, id: nat)
    requires id in IdMap(t).Values
    ensures HasId(t, id)
  {
    var k :| k in IdMap(t) && IdMap(t)[k] == id;
    assert k in t.rows && t.rows[k].id == id;
  }

  /** `executemany` of the upsert statement, tuple by tuple. */
  method UpsertMany<K, A>(t: Dim<K, A>, batch: seq<(K, A)>) returns (r: Dim<K, A>)
    ensures r == Upsert(t, batch)
  {
    r := t;
    var i := 0;
    while i < |batch|
      invariant 0 <= i <= |batch|
      invariant r == Upsert(t, batch[..i])
    {
      var (k, a) := batch[i];
      if k in r.rows {
        r := Dim(r.rows[k := Entry(r.rows[k].id, a)], r.next);
      } else {
        r := Dim(r.rows[k := Entry(r.next, a)], r.next + 1);
      }
      assert batch[..i + 1][..i] == batch[..i];
      i := i + 1;
    }
    assert batch[..i] == batch;
  }

  // ---------------------------------------------------------------------
  // Tables keyed by their natural key

  /** A batch of upserts into a table whose primary key is the natural key. */
  function Put<K, V>(m: map<K, V>, b: seq<(K, V)>): map<K, V>
    decreases |b|
  {
    if b == [] then m else Put(m, b[..|b| - 1])[b[|b| - 1].0 := b[|b| - 1].1]
  }

  /** The keys are the old ones plus the batch's, a key the batch leaves
      alone keeps its row, and every other key holds its last tuple's row. */
  lemma {:induction false} PutFacts<K, V>(m: map<K, V>, b: seq<(K, V)>)
    ensures Put(m, b).Keys == m.Keys + KeysOf(b)
    ensures forall k :: k in m && k !in KeysOf(b) ==> Put(m, b)[k] == m[k]
    ensures forall k :: k in KeysOf(b) ==> Put(m, b)[k] == LastValue(b, k)
    decreases |b|
  {
    if b != [] {
      PutFacts(m, b[..|b| - 1]);
      KeysOfSnoc(b);
    }
  }

  /** For a key the batch repeats, the last tuple wins. */
  lemma PutLastWins<K, V>(m: map<K, V>, b: seq<(K, V)>, i: nat)
    requires i < |b|
    requires forall j :: i < j < |b| ==> b[j].0 != b[i].0
    ensures b[i].0 in Put(m, b) && Put(m, b)[b[i].0] == b[i].1
  {
    PutFacts(m, b);
    LastValueAt(b, i);
  }

  /** Applying the same batch twice gives the table that applying it once gives. */
  lemma PutIdempotent<K, V>(m: map<K, V>, b: seq<(K, V)>)
    ensures Put(Put(m, b), b) == Put(m, b)
  {
    PutFacts(m, b);
    PutFacts(Put(m, b), b);
  }

  /** A batch split in two is the first part applied, then the second. */
  lemma {:induction false} PutAppend<K, V>(m: map<K, V>, a: seq<(K, V)>, b: seq<(K, V)>)
    ensures Put(m, a + b) == Put(Put(m, a), b)
    decreases |b|
  {
    if b == [] {
      assert a + b == a;
    } else {
      var n := |b| - 1;
      assert (a + b)[..|a + b| - 1] == a + b[..n];
      assert (a + b)[|a + b| - 1] == b[n];
      PutAppend(m, a, b[..n]);
    }
  }

  /** After the batch `a + b`, applying it again followed by
      another copy of `b` changes nothing. */
  lemma PutRerun<K, V>(m: map<K, V>, a: seq<(K, V)>, b: seq<(K, V)>)
    ensures Put(Put(m, a + b), a + b + b) == Put(m, a + b)
  {
    PutAppend(Put(m, a + b), a + b, b);
    PutIdempotent(m, a + b);
    PutAppend(m, a, b);
    PutIdempotent(Put(m, a), b);
  }

  /** A property every old row and every tuple of the batch has, every row
      of the new table has. */
  lemma {:induction false} PutPreserves<K, V>(m: map<K, V>, b: seq<(K, V)>, P: V -> bool)
    requires forall k :: k in m ==> P(m[k])
    requires forall i :: 0 <= i < |b| ==> P(b[i].1)
    ensures forall k :: k in Put(m, b) ==> P(Put(m, b)[k])
    decreases |b|
  {
    if b != [] {
      PutPreserves(m, b[..|b| - 1], P);
    }
  }

  /** `executemany` of the upsert statement, tuple by tuple. */
  method PutMany<K, V>(m: map<K, V>, batch: seq<(K, V)>) returns (r: map<K, V>)
    ensures r == Put(m, batch)
  {
    r := m;
    var i := 0;
    while i < |batch|
      invariant 0 <= i <= |batch|
      invariant r == Put(m, batch[..i])
    {
      r := r[batch[i].0 := batch[i].1];
      assert batch[..i + 1][..i] == batch[..i];
      i := i + 1;
    }
    assert batch[..i] == batch;
  }
}
