/** The specification of a buffer: one flat map in which records with equal keys are merged.
    A table is a key function, a merge function, and whether a later record simply overwrites. */
module FlatBuffer {
  import opened Sequences
  import opened Keys

  datatype Table<!R> = Table(key: R -> Bytes, merge: (R, R) -> R, overwrite: bool)

  /** What the shared proofs need of a table: a merged record stays under the key of its entry. */
  ghost predicate KeyStable<R(!new)>(t: Table<R>) {
    forall a, b :: t.key(a) == t.key(b) ==> t.key(t.merge(a, b)) == t.key(a)
  }

  ghost predicate Associative<R(!new)>(t: Table<R>) {
    forall a, b, c :: t.merge(t.merge(a, b), c) == t.merge(a, t.merge(b, c))
  }

  ghost predicate Idempotent<R(!new)>(t: Table<R>) {
    forall a :: t.merge(a, a) == a
  }

  /** Overwriting is the merge that keeps the later record. */
  ghost predicate Overwrites<R(!new)>(t: Table<R>) {
    t.overwrite && forall a, b :: t.merge(a, b) == b
  }

  /** Folding arrivals, in order, onto what is buffered for their key. */
  function FoldOnto<R>(merge: (R, R) -> R, start: Option<R>, rs: seq<R>): Option<R> {
    if rs == [] then start
    else
      var last := rs[|rs| - 1];
      match FoldOnto(merge, start, rs[..|rs| - 1])
      case None => Some(last)
      case Some(v) => Some(merge(v, last))
  }

  function Fold<R>(merge: (R, R) -> R, rs: seq<R>): Option<R> { FoldOnto(merge, None, rs) }

  function Lookup<R>(buffer: map<Bytes, R>, key: Bytes): Option<R> {
    if key in buffer then Some(buffer[key]) else None
  }

  /** One record arriving: merged into the entry of its key, or inserted. */
  function Absorb<R>(t: Table<R>, buffer: map<Bytes, R>, r: R): map<Bytes, R> {
    var k := t.key(r);
    buffer[k := if k in buffer then t.merge(buffer[k], r) else r]
  }

  function AbsorbAll<R>(t: Table<R>, buffer: map<Bytes, R>, rs: seq<R>): map<Bytes, R> {
    if rs == [] then buffer else Absorb(t, AbsorbAll(t, buffer, rs[..|rs| - 1]), rs[|rs| - 1])
  }

  /** How many arrivals found their key present. */
  function Collisions<R>(t: Table<R>, buffer: map<Bytes, R>, rs: seq<R>): nat {
    if rs == [] then 0
    else
      Collisions(t, buffer, rs[..|rs| - 1])
      + if t.key(rs[|rs| - 1]) in AbsorbAll(t, buffer, rs[..|rs| - 1]) then 1 else 0
  }

  function WithKey<R>(t: Table<R>, k: Bytes, rs: seq<R>): seq<R> { Filter(rs, r => t.key(r) == k) }

  lemma WithKeyConcat<R>(t: Table<R>, k: Bytes, a: seq<R>, b: seq<R>)
    ensures WithKey(t, k, a + b) == WithKey(t, k, a) + WithKey(t, k, b)
  {
    FilterConcat(a, b, r => t.key(r) == k);
  }

  /** Batch split: without a drain in between, one call with xs + ys is two calls with xs and ys. */
  lemma {:induction false} AbsorbAllConcat<R>(t: Table<R>, buffer: map<Bytes, R>, xs: seq<R>, ys: seq<R>)
    ensures AbsorbAll(t, buffer, xs + ys) == AbsorbAll(t, AbsorbAll(t, buffer, xs), ys)
    ensures Collisions(t, buffer, xs + ys) == Collisions(t, buffer, xs) + Collisions(t, AbsorbAll(t, buffer, xs), ys)
  {
    if ys == [] {
      assert xs + ys == xs;
    } else {
      assert (xs + ys)[..|xs + ys| - 1] == xs + ys[..|ys| - 1];
      AbsorbAllConcat(t, buffer, xs, ys[..|ys| - 1]);
    }
  }

  /** Accounting of one Add: every arrival either found its key or added one entry. */
  lemma {:induction false} CollisionAccounting<R>(t: Table<R>, buffer: map<Bytes, R>, rs: seq<R>)
    ensures |AbsorbAll(t, buffer, rs)| + Collisions(t, buffer, rs) == |buffer| + |rs|
  {
    if rs == [] {
    } else {
      CollisionAccounting(t, buffer, rs[..|rs| - 1]);
      var before := AbsorbAll(t, buffer, rs[..|rs| - 1]);
      var k := t.key(rs[|rs| - 1]);
      assert AbsorbAll(t, buffer, rs).Keys == before.Keys + {k};
    }
  }

  /** The buffer is, key by key, the fold of that key's arrivals in arrival order. */
  lemma {:induction false} PerKeyFold<R>(t: Table<R>, buffer: map<Bytes, R>, rs: seq<R>, k: Bytes)
    ensures Lookup(AbsorbAll(t, buffer, rs), k) == FoldOnto(t.merge, Lookup(buffer, k), WithKey(t, k, rs))
  {
    if rs == [] {
    } else {
      var init, last := rs[..|rs| - 1], rs[|rs| - 1];
      PerKeyFold(t, buffer, init, k);
      var mine := WithKey(t, k, rs);
      if t.key(last) == k {
        assert mine[..|mine| - 1] == WithKey(t, k, init);
      }
    }
  }

  lemma WithKeySingle<R>(t: Table<R>, k: Bytes, y: R)
    ensures WithKey(t, k, [y]) == if t.key(y) == k then [y] else []
  {
    assert [y][..0] == [];
  }

  lemma WithKeyRemoveAt<R>(t: Table<R>, k: Bytes, ys: seq<R>, j: nat)
    requires j < |ys|
    requires t.key(ys[j]) == k ==> WithKey(t, k, ys[j + 1..]) == []
    ensures WithKey(t, k, ys) == WithKey(t, k, ys[..j] + ys[j + 1..]) + if t.key(ys[j]) == k then [ys[j]] else []
  {
    var a, y, b := ys[..j], ys[j], ys[j + 1..];
    assert ys == a + ([y] + b);
    WithKeyConcat(t, k, a, [y] + b);
    WithKeyConcat(t, k, [y], b);
    WithKeyConcat(t, k, a, b);
    WithKeySingle(t, k, y);
  }

  lemma NoKeysNoRecords<R>(t: Table<R>, ys: seq<R>)
    ensures ys != [] ==> exists k :: WithKey(t, k, ys) != []
  {
    if ys != [] {
      assert ys[|ys| - 1] in WithKey(t, t.key(ys[|ys| - 1]), ys);
    }
  }

  lemma {:induction false} LastWithKey<R>(t: Table<R>, k: Bytes, ys: seq<R>) returns (j: nat)
    requires WithKey(t, k, ys) != []
    ensures j < |ys| && t.key(ys[j]) == k && WithKey(t, k, ys[j + 1..]) == []
  {
    if t.key(ys[|ys| - 1]) == k {
      j := |ys| - 1;
    } else {
      j := LastWithKey(t, k, ys[..|ys| - 1]);
      assert ys[j + 1..][..|ys| - j - 2] == ys[..|ys| - 1][j + 1..];
    }
  }

  lemma SameButLast<R>(a: seq<R>, x: R, b: seq<R>, y: R)
    ensures a + [x] == b + [y] ==> a == b
  {
    if a + [x] == b + [y] {
      assert a == (a + [x])[..|a|] && b == (b + [y])[..|b|];
    }
  }

  /** Two arrival orders that agree key by key have the same length. */
  lemma {:induction false} SamePerKeyOrderSameLength<R>(t: Table<R>, xs: seq<R>, ys: seq<R>)
    requires forall k :: WithKey(t, k, xs) == WithKey(t, k, ys)
    ensures |xs| == |ys|
  {
    if xs == [] {
      NoKeysNoRecords(t, ys);
    } else {
      var init, last := xs[..|xs| - 1], xs[|xs| - 1];
      var k0 := t.key(last);
      var j := LastWithKey(t, k0, ys);
      var ys' := ys[..j] + ys[j + 1..];
      forall k
        ensures WithKey(t, k, init) == WithKey(t, k, ys')
      {
        WithKeyRemoveAt(t, k, ys, j);
        WithKeyRemoveAt(t, k, xs, |xs| - 1);
        assert init + xs[|xs|..] == init;
        SameButLast(WithKey(t, k, init), last, WithKey(t, k, ys'), ys[j]);
      }
      SamePerKeyOrderSameLength(t, init, ys');
    }
  }

  /** Cross-key independence: any interleaving that keeps each key's order gives the same buffer and counter. */
  lemma OrderIndependence<R>(t: Table<R>, buffer: map<Bytes, R>, xs: seq<R>, ys: seq<R>)
    requires forall k :: WithKey(t, k, xs) == WithKey(t, k, ys)
    ensures AbsorbAll(t, buffer, xs) == AbsorbAll(t, buffer, ys)
    ensures Collisions(t, buffer, xs) == Collisions(t, buffer, ys)
  {
    var a, b := AbsorbAll(t, buffer, xs), AbsorbAll(t, buffer, ys);
    forall k
      ensures Lookup(a, k) == Lookup(b, k)
    {
      PerKeyFold(t, buffer, xs, k);
      PerKeyFold(t, buffer, ys, k);
    }
    assert forall k :: k in a <==> Lookup(a, k).Some?;
    assert forall k :: k in b <==> Lookup(b, k).Some?;
    assert forall k :: k in a ==> Lookup(a, k).value == a[k];
    assert a == b;
    SamePerKeyOrderSameLength(t, xs, ys);
    CollisionAccounting(t, buffer, xs);
    CollisionAccounting(t, buffer, ys);
  }

  lemma FoldSingle<R>(merge: (R, R) -> R, x: R)
    ensures Fold(merge, [x]) == Some(x)
  {
    assert [x][..0] == [];
    assert FoldOnto(merge, None, [x][..0]) == None;
  }

  /** Regrouping: with an associative merge, one key's arrivals may be folded in groups. */
  lemma {:induction false} FoldRegroup<R(!new)>(t: Table<R>, xs: seq<R>, ys: seq<R>)
    requires Associative(t) && xs != [] && ys != []
    ensures Fold(t.merge, xs).Some? && Fold(t.merge, ys).Some?
    ensures Fold(t.merge, xs + ys) == Some(t.merge(Fold(t.merge, xs).value, Fold(t.merge, ys).value))
  {
    var init := ys[..|ys| - 1];
    assert (xs + ys)[..|xs + ys| - 1] == xs + init;
    if init == [] {
      assert xs + init == xs && ys == [ys[0]];
      FoldSingle(t.merge, ys[0]);
    } else {
      FoldRegroup(t, xs, init);
    }
  }

  /** An overwriting table keeps exactly the last arrival. */
  lemma OverwriteKeepsLast<R(!new)>(t: Table<R>, rs: seq<R>)
    requires Overwrites(t) && rs != []
    ensures Fold(t.merge, rs) == Some(rs[|rs| - 1])
  {
  }
}
