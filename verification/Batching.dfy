/** Cutting a drained slice into batches and dispatching them, and when the loop ends at all. */
module Batching {
  import opened Sequences

  /** The batches of `s`, each as long as allowed. */
  function Batches<T>(s: seq<T>, size: nat): seq<seq<T>>
    requires size >= 1
    decreases |s|
  {
    if s == [] then [] else [s[..Min(size, |s|)]] + Batches(s[Min(size, |s|)..], size)
  }

  function Concat<T>(bs: seq<seq<T>>): seq<T> {
    if bs == [] then [] else bs[0] + Concat(bs[1..])
  }

  /** The batches from the first one on. */
  lemma BatchesCons<T>(s: seq<T>, size: nat, batch: seq<T>, rest: seq<T>)
    requires size >= 1 && s != [] && batch == s[..Min(size, |s|)] && rest == s[Min(size, |s|)..]
    ensures Batches(s, size) == [batch] + Batches(rest, size) && Batches(s, size)[1..] == Batches(rest, size)
  {
  }

  /** The batches are non-empty, within the limit, and concatenate to the slice. */
  lemma {:induction false} BatchesPartition<T>(s: seq<T>, size: nat)
    requires size >= 1
    ensures Concat(Batches(s, size)) == s
    ensures forall j :: 0 <= j < |Batches(s, size)| ==> 1 <= |Batches(s, size)[j]| <= size
    decreases |s|
  {
    if s == [] {
    } else {
      var n := Min(size, |s|);
      BatchesPartition(s[n..], size);
      BatchesCons(s, size, s[..n], s[n..]);
      assert s == s[..n] + s[n..];
    }
  }

  /** They are as few as cover the slice: n / size rounded up. */
  lemma {:induction false} BatchesCount<T>(s: seq<T>, size: nat)
    requires size >= 1
    ensures |s| <= |Batches(s, size)| * size < |s| + size
    decreases |s|
  {
    if s == [] {
    } else {
      var n := Min(size, |s|);
      BatchesCount(s[n..], size);
      BatchesCons(s, size, s[..n], s[n..]);
      OneMore(|Batches(s[n..], size)|, size);
    }
  }

  lemma OneMore(k: nat, size: nat)
    ensures (k + 1) * size == k * size + size
  {
  }

  lemma Regroup<T>(a: seq<T>, b: seq<T>, c: seq<T>)
    ensures a + (b + c) == (a + b) + c
  {
  }

  /** The dispatch loop of a flush. `full` says whether the channel had no room for batch j, and `direct`
      whether writing batch j directly succeeded. */
  method Dispatch<T>(metrics: seq<T>, batchSize: nat, full: nat -> bool, direct: nat -> bool)
    returns (ok: bool, dispatched: seq<seq<T>>)
    requires batchSize >= 1
    ensures dispatched <= Batches(metrics, batchSize)
    ensures forall j: nat :: j < |dispatched| ==> !full(j) || direct(j)
    ensures ok <==> dispatched == Batches(metrics, batchSize)
    ensures !ok ==> full(|dispatched|) && !direct(|dispatched|)
  {
    dispatched := [];
    var i := 0;
    while i < |metrics|
      invariant i >= 0
      invariant i < |metrics| ==> Batches(metrics, batchSize) == dispatched + Batches(metrics[i..], batchSize)
      invariant i >= |metrics| ==> Batches(metrics, batchSize) == dispatched
      invariant forall j: nat :: j < |dispatched| ==> !full(j) || direct(j)
      decreases |metrics| - i
    {
      var end := i + batchSize;
      if end > |metrics| {
        end := |metrics|;
      }
      var batch := metrics[i..end];
      var rest := metrics[i..];
      assert batch == rest[..Min(batchSize, |rest|)] && metrics[end..] == rest[Min(batchSize, |rest|)..];
      BatchesCons(rest, batchSize, batch, metrics[end..]);
      Regroup(dispatched, [batch], Batches(metrics[end..], batchSize));
      if full(|dispatched|) && !direct(|dispatched|) {
        return false, dispatched;
      }
      dispatched := dispatched + [batch];
      i := i + batchSize;
    }
    ok := true;
  }

  /** Where the loop index stands: at a position, past the end, or at a slice with end before start. */
  datatype Loop = At(i: int) | Ended | Panicked

  function Iterate(n: nat, size: int, at: Loop): Loop {
    match at
    case At(i) =>
      if i >= n then Ended
      else
        var end := Min(i + size, n);
        if end < i then Panicked else At(i + size)
    case _ => at
  }

  function After(n: nat, size: int, k: nat): Loop {
    if k == 0 then At(0) else Iterate(n, size, After(n, size, k - 1))
  }

  ghost predicate Terminates(n: nat, size: int) {
    exists k :: After(n, size, k).Ended?
  }

  lemma {:induction false} Advances(n: nat, size: int, k: nat)
    requires size >= 1 && k <= n
    ensures After(n, size, k).Ended? || (After(n, size, k).At? && After(n, size, k).i >= k)
  {
    if k == 0 {
    } else {
      Advances(n, size, k - 1);
    }
  }

  lemma {:induction false} StaysPut(n: nat, size: int, k: nat)
    requires size <= 0 && n > 0
    ensures After(n, size, k) == if size == 0 || k == 0 then At(0) else Panicked
  {
    if k == 0 {
    } else {
      StaysPut(n, size, k - 1);
    }
  }

  /** The dispatch loop over a non-empty slice ends normally exactly when the configured batch size is positive:
      with zero it spins forever on empty batches, with a negative size it panics on the first slice. */
  lemma TerminatesIff(n: nat, size: int)
    requires n > 0
    ensures Terminates(n, size) <==> size >= 1
  {
    if size >= 1 {
      Advances(n, size, n);
      assert After(n, size, n + 1).Ended?;
    } else {
      forall k: nat
        ensures !After(n, size, k).Ended?
      {
        StaysPut(n, size, k);
      }
    }
  }
}
