/** What the flat runs of the platform buffer make of the records: whatever the schedule, folding all that was
    drained and is buffered under a key gives the fold of all records that arrived under it. */
module PlatformHistory {
  import opened Sequences
  import opened Keys
  import opened FlatBuffer
  import opened Metrics
  import opened ShardedMaps
  import opened PlatformSchedule

  ghost predicate UnderOwnKeys(buffer: map<Bytes, PlatformRecord>) {
    forall k :: k in buffer ==> PLATFORM.key(buffer[k]) == k
  }

  /** The records under one key: those drained, in order, and the one still buffered. */
  ghost function RowsUnder(f: Flat, k: Bytes): seq<PlatformRecord> {
    WithKey(PLATFORM, k, f.drained) + if k in f.buffer then [f.buffer[k]] else []
  }

  lemma CopiesAppend(part: map<Bytes, PlatformRecord>, init: seq<Bytes>, last: Bytes)
    requires (forall k :: k in init ==> k in part) && last in part
    ensures Copies(part, init + [last]) == Copies(part, init) + [part[last]]
  {
  }

  lemma {:induction false} WithKeyCopies(part: map<Bytes, PlatformRecord>, order: seq<Bytes>, k: Bytes)
    requires UnderOwnKeys(part) && Distinct(order) && forall j :: j in order ==> j in part
    ensures WithKey(PLATFORM, k, Copies(part, order)) == if k in order then [part[k]] else []
  {
    if order == [] {
    } else {
      var init, last := order[..|order| - 1], order[|order| - 1];
      assert order == init + [last] && last !in init;
      WithKeyCopies(part, init, k);
      CopiesAppend(part, init, last);
      WithKeyConcat(PLATFORM, k, Copies(part, init), [part[last]]);
      WithKeySingle(PLATFORM, k, part[last]);
    }
  }

  /** A drain moves a key's record from the buffer to the end of what is drained. */
  lemma DrainKeepsRows(shardOf: Bytes -> nat, views: seq<PlatformRecord>, f: Flat, i: nat, order: seq<Bytes>, k: Bytes)
    requires UnderOwnKeys(f.buffer) && PlayTurn(shardOf, views, f, DrainTurn(i), order).Some?
    ensures var g := PlayTurn(shardOf, views, f, DrainTurn(i), order).value;
            UnderOwnKeys(g.buffer) && RowsUnder(g, k) == RowsUnder(f, k) && g.next == f.next
  {
    var part := Slice(f.buffer, shardOf, i);
    WithKeyCopies(part, order, k);
    WithKeyConcat(PLATFORM, k, f.drained, Copies(part, order));
  }

  /** Merging into the last record of a group is folding one more record. */
  lemma FoldLastMerged(rows: seq<PlatformRecord>, b: PlatformRecord, r: PlatformRecord)
    ensures Fold(PLATFORM.merge, rows + [PLATFORM.merge(b, r)]) == Fold(PLATFORM.merge, rows + [b] + [r])
  {
    PlatformLaws();
    FoldOneMore(rows, PLATFORM.merge(b, r));
    FoldOneMore(rows + [b], r);
    FoldOneMore(rows, b);
  }

  lemma FoldOneMore(rows: seq<PlatformRecord>, r: PlatformRecord)
    ensures Fold(PLATFORM.merge, rows + [r]) ==
            match Fold(PLATFORM.merge, rows) { case None => Some(r) case Some(v) => Some(PLATFORM.merge(v, r)) }
  {
    assert (rows + [r])[..|rows|] == rows;
  }

  lemma FoldSameStart(a: seq<PlatformRecord>, b: seq<PlatformRecord>, more: seq<PlatformRecord>)
    requires Fold(PLATFORM.merge, a) == Fold(PLATFORM.merge, b) && |more| <= 1
    ensures Fold(PLATFORM.merge, a + more) == Fold(PLATFORM.merge, b + more)
  {
    if more == [] {
      assert a + more == a && b + more == b;
    } else {
      assert more == [more[0]];
      FoldOneMore(a, more[0]);
      FoldOneMore(b, more[0]);
    }
  }

  /** An Add turn folds one more record into the rows of its key, and leaves the other keys alone. */
  lemma AddFoldsOne(shardOf: Bytes -> nat, views: seq<PlatformRecord>, f: Flat, order: seq<Bytes>, k: Bytes)
    requires UnderOwnKeys(f.buffer) && f.next < |views|
    ensures var g := PlayTurn(shardOf, views, f, AddTurn, order).value;
            && UnderOwnKeys(g.buffer)
            && Fold(PLATFORM.merge, RowsUnder(g, k)) == Fold(PLATFORM.merge, RowsUnder(f, k) + WithKey(PLATFORM, k, [views[f.next]]))
  {
    PlatformLaws();
    var r, rows := views[f.next], WithKey(PLATFORM, k, f.drained);
    WithKeySingle(PLATFORM, k, r);
    if PLATFORM.key(r) == k {
      if k in f.buffer {
        FoldLastMerged(rows, f.buffer[k], r);
      } else {
        assert RowsUnder(f, k) == rows;
      }
    } else {
      assert RowsUnder(f, k) + [] == RowsUnder(f, k);
    }
  }

  /** The fold of everything drained and buffered under a key is the fold of its arrivals so far. */
  ghost predicate FoldsArrivals(views: seq<PlatformRecord>, f: Flat, k: Bytes) {
    f.next <= |views| && Fold(PLATFORM.merge, RowsUnder(f, k)) == Fold(PLATFORM.merge, WithKey(PLATFORM, k, views[..f.next]))
  }

  lemma ArrivedOneMore(views: seq<PlatformRecord>, n: nat, k: Bytes)
    requires n < |views|
    ensures WithKey(PLATFORM, k, views[..n + 1]) == WithKey(PLATFORM, k, views[..n]) + WithKey(PLATFORM, k, [views[n]])
    ensures |WithKey(PLATFORM, k, [views[n]])| <= 1
  {
    assert views[..n + 1] == views[..n] + [views[n]];
    WithKeyConcat(PLATFORM, k, views[..n], [views[n]]);
    WithKeySingle(PLATFORM, k, views[n]);
  }

  lemma TurnFoldsArrivals(shardOf: Bytes -> nat, views: seq<PlatformRecord>, f: Flat, t: Turn, order: seq<Bytes>, k: Bytes)
    requires UnderOwnKeys(f.buffer) && FoldsArrivals(views, f, k) && PlayTurn(shardOf, views, f, t, order).Some?
    ensures var g := PlayTurn(shardOf, views, f, t, order).value; UnderOwnKeys(g.buffer) && FoldsArrivals(views, g, k)
  {
    match t {
      case AddTurn =>
        AddFoldsOne(shardOf, views, f, order, k);
        ArrivedOneMore(views, f.next, k);
        FoldSameStart(RowsUnder(f, k), WithKey(PLATFORM, k, views[..f.next]), WithKey(PLATFORM, k, [views[f.next]]));
      case DrainTurn(i) =>
        DrainKeepsRows(shardOf, views, f, i, order, k);
    }
  }

  /** Whatever the schedule of Adds and drains from the empty buffer, no arrival is lost and none is moved to
      another key: key by key, the drained and buffered records fold to what the arrivals fold to. */
  lemma {:induction false} PlayFoldsArrivals(shardOf: Bytes -> nat, views: seq<PlatformRecord>, turns: seq<Turn>, orders: seq<seq<Bytes>>, k: Bytes)
    requires |orders| == |turns| && Play(shardOf, views, Flat(map[], 0, []), turns, orders).Some?
    ensures var g := Play(shardOf, views, Flat(map[], 0, []), turns, orders).value;
            UnderOwnKeys(g.buffer) && FoldsArrivals(views, g, k)
    decreases |turns|
  {
    if turns == [] {
    } else {
      var n := |turns| - 1;
      PlayFoldsArrivals(shardOf, views, turns[..n], orders[..n], k);
      TurnFoldsArrivals(shardOf, views, Play(shardOf, views, Flat(map[], 0, []), turns[..n], orders[..n]).value, turns[n], orders[n], k);
    }
  }
}
