/** Optional values, sums over sequences, and unique splitting of sequences at a separator. */
module Sequences {

  datatype Option<+T> = None | Some(value: T) {
    function GetOr(default: T): T {
      match this
      case Some(v) => v
      case None => default
    }
  }

  function Min(a: int, b: int): int { if a < b then a else b }

  /** The sum of the multisets that `f` assigns to the elements of `s`. */
  ghost function Gather<V, T>(s: seq<V>, f: V -> multiset<T>): multiset<T> {
    if s == [] then multiset{} else f(s[0]) + Gather(s[1..], f)
  }

  lemma {:induction false} GatherConcat<V, T>(a: seq<V>, b: seq<V>, f: V -> multiset<T>)
    ensures Gather(a + b, f) == Gather(a, f) + Gather(b, f)
  {
    if a == [] {
      assert a + b == b;
    } else {
      assert (a + b)[1..] == a[1..] + b;
      GatherConcat(a[1..], b, f);
    }
  }

  lemma GatherAppend<V, T>(s: seq<V>, v: V, f: V -> multiset<T>)
    ensures Gather(s + [v], f) == Gather(s, f) + f(v)
  {
    GatherConcat(s, [v], f);
    assert Gather([v], f) == f(v) + Gather([v][1..], f);
  }

  /** What the elements other than number `i` contribute. */
  ghost function GatherBut<V, T>(s: seq<V>, i: nat, f: V -> multiset<T>): multiset<T>
    requires i < |s|
  {
    Gather(s[..i], f) + Gather(s[i + 1..], f)
  }

  lemma GatherSplit<V, T>(s: seq<V>, i: nat, v: V, f: V -> multiset<T>)
    requires i < |s|
    ensures Gather(s[i := v], f) == GatherBut(s, i, f) + f(v)
  {
    var a, b := s[..i], s[i + 1..];
    assert s[i := v] == a + ([v] + b);
    assert ([v] + b)[1..] == b;
    GatherConcat(a, [v] + b, f);
  }

  /** Replacing one element exchanges its contribution and keeps the others. */
  lemma GatherUpdate<V, T>(s: seq<V>, i: nat, v: V, f: V -> multiset<T>)
    requires i < |s|
    ensures Gather(s, f) == GatherBut(s, i, f) + f(s[i])
    ensures Gather(s[i := v], f) == GatherBut(s, i, f) + f(v)
  {
    assert s[i := s[i]] == s;
    GatherSplit(s, i, s[i], f);
    GatherSplit(s, i, v, f);
  }

  /** Membership in a gathered multiset comes from one of its parts, and conversely. */
  lemma {:induction false} GatherMember<V, T>(s: seq<V>, f: V -> multiset<T>, x: T)
    ensures x in Gather(s, f) <==> exists i :: 0 <= i < |s| && x in f(s[i])
  {
    if s == [] {
    } else {
      GatherMember(s[1..], f, x);
      assert forall i :: 0 <= i < |s[1..]| ==> s[1..][i] == s[i + 1];
      if i :| 0 <= i < |s| && x in f(s[i]) {
        assert i > 0 ==> s[i] == s[1..][i - 1];
      }
    }
  }

  /** Two gathers over the same sequence add up pointwise. */
  lemma {:induction false} GatherPointwise<V, T>(s: seq<V>, f: V -> multiset<T>, g: V -> multiset<T>, h: V -> multiset<T>)
    requires forall v :: v in s ==> h(v) == f(v) + g(v)
    ensures Gather(s, h) == Gather(s, f) + Gather(s, g)
  {
    if s == [] {
    } else {
      GatherPointwise(s[1..], f, g, h);
    }
  }

  /** The sum of the numbers that `f` assigns to the elements of `s`. */
  ghost function Total<V>(s: seq<V>, f: V -> nat): nat {
    if s == [] then 0 else f(s[0]) + Total(s[1..], f)
  }

  lemma {:induction false} TotalConcat<V>(a: seq<V>, b: seq<V>, f: V -> nat)
    ensures Total(a + b, f) == Total(a, f) + Total(b, f)
  {
    if a == [] {
      assert a + b == b;
    } else {
      assert (a + b)[1..] == a[1..] + b;
      TotalConcat(a[1..], b, f);
    }
  }

  lemma TotalAppend<V>(s: seq<V>, v: V, f: V -> nat)
    ensures Total(s + [v], f) == Total(s, f) + f(v)
  {
    TotalConcat(s, [v], f);
    assert Total([v], f) == f(v) + Total([v][1..], f);
  }

  lemma TotalUpdate<V>(s: seq<V>, i: nat, v: V, f: V -> nat)
    requires i < |s|
    ensures f(s[i]) <= Total(s, f)
    ensures Total(s[i := v], f) == Total(s, f) - f(s[i]) + f(v)
  {
    assert s == s[..i] + ([s[i]] + s[i + 1..]);
    assert s[i := v] == s[..i] + ([v] + s[i + 1..]);
    TotalConcat(s[..i], [s[i]] + s[i + 1..], f);
    TotalConcat(s[..i], [v] + s[i + 1..], f);
    assert ([s[i]] + s[i + 1..])[1..] == s[i + 1..] == ([v] + s[i + 1..])[1..];
  }

  /** A gather whose parts have the sizes `g` has the total of those sizes. */
  lemma {:induction false} GatherSize<V, T>(s: seq<V>, f: V -> multiset<T>, g: V -> nat)
    requires forall v :: v in s ==> |f(v)| == g(v)
    ensures |Gather(s, f)| == Total(s, g)
  {
    if s == [] {
    } else {
      GatherSize(s[1..], f, g);
    }
  }

  lemma {:induction false} TotalMonotone<V>(s: seq<V>, f: V -> nat, g: V -> nat)
    requires forall v :: v in s ==> f(v) <= g(v)
    ensures Total(s, f) <= Total(s, g)
  {
    if s == [] {
    } else {
      TotalMonotone(s[1..], f, g);
    }
  }

  /** The elements of `s` that satisfy `p`, in order. */
  function Filter<T>(s: seq<T>, p: T -> bool): (r: seq<T>)
    ensures |r| <= |s|
    ensures forall i :: 0 <= i < |r| ==> r[i] in s && p(r[i])
    ensures forall i :: 0 <= i < |s| && p(s[i]) ==> s[i] in r
  {
    if s == [] then []
    else
      var rest := Filter(s[..|s| - 1], p);
      assert s == s[..|s| - 1] + [s[|s| - 1]];
      if p(s[|s| - 1]) then rest + [s[|s| - 1]] else rest
  }

  lemma {:induction false} FilterConcat<T>(a: seq<T>, b: seq<T>, p: T -> bool)
    ensures Filter(a + b, p) == Filter(a, p) + Filter(b, p)
  {
    if b == [] {
      assert a + b == a;
    } else {
      assert (a + b)[..|a + b| - 1] == a + b[..|b| - 1];
      FilterConcat(a, b[..|b| - 1], p);
    }
  }

  /** A separator that does not occur before it splits a sequence in only one way. */
  lemma SplitFirst<T>(x: seq<T>, u: seq<T>, y: seq<T>, v: seq<T>, sep: T)
    requires sep !in x && sep !in y
    requires x + [sep] + u == y + [sep] + v
    ensures x == y && u == v
  {
    var s := x + [sep] + u;
    assert s[|x|] == sep && s[|y|] == sep;
    assert forall k :: 0 <= k < |x| ==> s[k] == x[k];
    assert forall k :: 0 <= k < |y| ==> s[k] == y[k];
    assert x == s[..|x|] && y == s[..|y|];
    assert u == s[|x| + 1..] && v == s[|y| + 1..];
  }

  /** A separator that does not occur after it splits a sequence in only one way. */
  lemma SplitLast<T>(x: seq<T>, u: seq<T>, y: seq<T>, v: seq<T>, sep: T)
    requires sep !in u && sep !in v
    requires x + [sep] + u == y + [sep] + v
    ensures x == y && u == v
  {
    var s := x + [sep] + u;
    assert s[|x|] == sep && s[|y|] == sep;
    assert forall k :: |x| < k < |s| ==> s[k] == u[k - |x| - 1];
    assert forall k :: |y| < k < |s| ==> s[k] == v[k - |y| - 1];
    assert x == s[..|x|] && y == s[..|y|];
    assert u == s[|x| + 1..] && v == s[|y| + 1..];
  }
}
