/** The main results: what holds in every reachable state of every interleaving. */
module PipelineTheorems {
  import opened Sequences
  import opened Keys
  import opened FlatBuffer
  import opened Metrics
  import opened ShardedMaps
  import opened Pipeline
  import opened PipelineRows
  import opened PipelineInputs
  import opened PipelineControl
  import opened PipelineDispatch
  import Batching
  import Retry
  import Sharding

  ghost predicate Inv<R(!new)>(cfg: Config<R>, s: State<R>) {
    && InputsSafe(cfg, s) && OutAccounted(s) && CountersAgree(cfg, s) && MarksHold(s) && FlushKeysApart(cfg, s)
    && BatchesFit(cfg, s) && LedgerKept(cfg, s) && ReadersBounded(s) && StopKept(s)
    && cfg.maxBatch >= 1 && DirectsKept(s) && DispatchKept(cfg, s) && QueueKept(s) && WritersStay(s)
  }

  lemma {:induction false} EmptyShards<R>(shards: seq<map<Bytes, Row<R>>>)
    requires forall i :: 0 <= i < |shards| ==> shards[i] == map[]
    ensures Gather(shards, ShardRows) == multiset{} && Total(shards, ShardSize) == 0
  {
    if shards == [] {
    } else {
      EmptyShards(shards[1..]);
      assert shards[0].Values == {};
    }
  }

  lemma InitInv<R(!new)>(cfg: Config<R>, s: State<R>)
    requires Usable(cfg) && Init(s)
    ensures Inv(cfg, s)
  {
    EmptyShards(s.shards);
  }

  lemma StepInv<R(!new)>(cfg: Config<R>, s: State<R>, a: Action<R>)
    requires Usable(cfg) && Inv(cfg, s) && Enabled(cfg, s, a)
    ensures Inv(cfg, Next(cfg, s, a))
  {
    StepKeepsInputsSafe(cfg, s, a);
    StepKeepsOut(cfg, s, a);
    StepKeepsCounters(cfg, s, a);
    StepKeepsMarks(cfg, s, a);
    StepKeepsFlushKeys(cfg, s, a);
    StepKeepsBatchesFit(cfg, s, a);
    StepKeepsLedger(cfg, s, a);
    StepKeepsReaders(cfg, s, a);
    StepKeepsStop(cfg, s, a);
    StepKeepsDirects(cfg, s, a);
    StepKeepsDispatch(cfg, s, a);
    StepKeepsQueue(cfg, s, a);
    StepKeepsWriters(cfg, s, a);
  }

  lemma StepTakenInv<R(!new)>(cfg: Config<R>, s: State<R>, a: Action<R>, s': State<R>)
    requires Usable(cfg) && Inv(cfg, s) && Step(cfg, s, a) == Some(s')
    ensures Inv(cfg, s')
  {
    StepInv(cfg, s, a);
  }

  lemma {:induction false} RunInv<R(!new)>(cfg: Config<R>, s: State<R>, actions: seq<Action<R>>, s': State<R>)
    requires Usable(cfg) && Inv(cfg, s) && Run(cfg, s, actions) == Some(s')
    ensures Inv(cfg, s')
    decreases |actions|
  {
    if actions == [] {
    } else {
      var v := Run(cfg, s, actions[..|actions| - 1]).value;
      RunInv(cfg, s, actions[..|actions| - 1], v);
      StepTakenInv(cfg, v, actions[|actions| - 1], s');
    }
  }

  /** The invariant holds in every state that some interleaving reaches. */
  lemma ReachableInv<R(!new)>(cfg: Config<R>, s: State<R>)
    requires Usable(cfg) && Reachable(cfg, s)
    ensures Inv(cfg, s)
  {
    var s0 :| Init(s0) && Leads(cfg, s0, s);
    var actions :| Run(cfg, s0, actions) == Some(s);
    InitInv(cfg, s0);
    RunInv(cfg, s0, actions, s);
  }

  lemma ReachableInputs<R(!new)>(cfg: Config<R>, s: State<R>)
    requires Usable(cfg) && Reachable(cfg, s)
    ensures InputsSafe(cfg, s) && OutAccounted(s)
  {
    ReachableInv(cfg, s);
  }

  lemma ReachableMarks<R(!new)>(cfg: Config<R>, s: State<R>)
    requires Usable(cfg) && Reachable(cfg, s)
    ensures MarksHold(s)
  {
    ReachableInv(cfg, s);
  }

  // Places.

  ghost function UndispatchedRows<R>(f: Flush<R>): multiset<Row<R>> { if f.stage.Finished? then multiset{} else multiset(f.rows) }
  ghost function AbandonedRows<R>(f: Flush<R>): multiset<Row<R>> { if f.stage.Finished? then multiset(f.rows) else multiset{} }
  ghost function RunningRows<R>(o: Op<R>): multiset<Row<R>> { if o.write.verdict.Running? then multiset(o.batch) else multiset{} }
  ghost function EndedRows<R>(o: Op<R>): multiset<Row<R>> { if o.write.verdict.Running? then multiset{} else multiset(o.batch) }
  ghost function WrittenRows<R>(o: Op<R>): multiset<Row<R>> { if o.write.verdict.Succeeded? then multiset(o.batch) else multiset{} }
  ghost function FailedRows<R>(o: Op<R>): multiset<Row<R>> { if o.write.verdict.Failed? then multiset(o.batch) else multiset{} }

  /** The seven places a row can be in. */
  datatype Places<R(==)> = Places(buffered: multiset<Row<R>>, undispatched: multiset<Row<R>>, abandoned: multiset<Row<R>>,
                              queued: multiset<Row<R>>, writing: multiset<Row<R>>, written: multiset<Row<R>>, failed: multiset<Row<R>>)

  ghost function PlacesOf<R>(s: State<R>): Places<R> {
    Places(BufferRows(s.shards), Gather(s.flushes, UndispatchedRows), Gather(s.flushes, AbandonedRows),
           Gather(s.channel, BatchRows), Gather(s.ops, RunningRows), Gather(s.ops, WrittenRows), Gather(s.ops, FailedRows))
  }

  lemma OpPlaces<R>(ops: seq<Op<R>>)
    ensures Gather(ops, OpRows) == Gather(ops, RunningRows) + Gather(ops, WrittenRows) + Gather(ops, FailedRows)
  {
    EndedPlaces(ops);
    GatherPointwise(ops, RunningRows, EndedRows, OpRows);
  }

  lemma EndedPlaces<R>(ops: seq<Op<R>>)
    ensures Gather(ops, EndedRows) == Gather(ops, WrittenRows) + Gather(ops, FailedRows)
  {
    GatherPointwise(ops, WrittenRows, FailedRows, EndedRows);
  }

  lemma SevenSum<T>(buffered: multiset<T>, out: multiset<T>, u: multiset<T>, a: multiset<T>, q: multiset<T>,
                    w: multiset<T>, d: multiset<T>, f: multiset<T>)
    requires out == (u + a) + q + (w + d + f)
    ensures buffered + out == buffered + u + a + q + w + d + f
  {
  }

  lemma AllRowsByPlace<R>(s: State<R>)
    requires OutAccounted(s)
    ensures var p := PlacesOf(s);
            AllRows(s) == p.buffered + p.undispatched + p.abandoned + p.queued + p.writing + p.written + p.failed
  {
    GatherPointwise(s.flushes, UndispatchedRows, AbandonedRows, FlushRows);
    OpPlaces(s.ops);
    var p := PlacesOf(s);
    SevenSum(p.buffered, OutRows(s), p.undispatched, p.abandoned, p.queued, p.writing, p.written, p.failed);
  }

  lemma PartsOfSeven<R>(p: Places<R>)
    ensures Parts(p.buffered + p.undispatched + p.abandoned + p.queued + p.writing + p.written + p.failed)
         == Parts(p.buffered) + Parts(p.undispatched) + Parts(p.abandoned) + Parts(p.queued)
            + Parts(p.writing) + Parts(p.written) + Parts(p.failed)
  {
    PartsSum(p.buffered, p.undispatched);
    PartsSum(p.buffered + p.undispatched, p.abandoned);
    PartsSum(p.buffered + p.undispatched + p.abandoned, p.queued);
    PartsSum(p.buffered + p.undispatched + p.abandoned + p.queued, p.writing);
    PartsSum(p.buffered + p.undispatched + p.abandoned + p.queued + p.writing, p.written);
    PartsSum(p.buffered + p.undispatched + p.abandoned + p.queued + p.writing + p.written, p.failed);
  }

  lemma {:induction false} AcceptedOnce<R>(accepted: seq<Input<R>>, i: nat)
    requires i < |accepted| && forall j :: 0 <= j < |accepted| ==> accepted[j].id == j
    ensures multiset(accepted)[accepted[i]] == 1
  {
    assert accepted == accepted[..i] + ([accepted[i]] + accepted[i + 1..]);
    assert accepted[i] !in accepted[..i] && accepted[i] !in accepted[i + 1..];
  }

  /** How often an input occurs over the seven places. */
  ghost function Occurrences<R>(p: Places<R>, x: Input<R>): nat {
    Parts(p.buffered)[x] + Parts(p.undispatched)[x] + Parts(p.abandoned)[x] + Parts(p.queued)[x]
    + Parts(p.writing)[x] + Parts(p.written)[x] + Parts(p.failed)[x]
  }

  lemma PlacesConserve<R(!new)>(cfg: Config<R>, s: State<R>)
    requires InputsSafe(cfg, s) && OutAccounted(s)
    ensures var p := PlacesOf(s);
            multiset(s.accepted) == Parts(p.buffered) + Parts(p.undispatched) + Parts(p.abandoned) + Parts(p.queued)
                                    + Parts(p.writing) + Parts(p.written) + Parts(p.failed)
  {
    AllRowsByPlace(s);
    PartsOfSeven(PlacesOf(s));
  }

  lemma AcceptedMultiplicity<R>(accepted: seq<Input<R>>, x: Input<R>)
    requires forall j :: 0 <= j < |accepted| ==> accepted[j].id == j
    ensures multiset(accepted)[x] == if x in accepted then 1 else 0
  {
    if x in accepted {
      var i :| 0 <= i < |accepted| && accepted[i] == x;
      AcceptedOnce(accepted, i);
    }
  }

  /** Conservation: in every reachable state each accepted input is in exactly one place, exactly once,
      and nothing else is anywhere. */
  lemma ExactlyOnePlace<R(!new)>(cfg: Config<R>, s: State<R>)
    requires Usable(cfg) && Reachable(cfg, s)
    ensures forall x :: Occurrences(PlacesOf(s), x) == if x in s.accepted then 1 else 0
  {
    ReachableInputs(cfg, s);
    forall x
      ensures Occurrences(PlacesOf(s), x) == if x in s.accepted then 1 else 0
    {
      OccurrencesCounted(cfg, s, x);
    }
  }

  lemma SumOfSevenAt<T>(m: multiset<T>, a: multiset<T>, b: multiset<T>, c: multiset<T>, d: multiset<T>,
                        e: multiset<T>, f: multiset<T>, g: multiset<T>, x: T)
    requires m == a + b + c + d + e + f + g
    ensures m[x] == a[x] + b[x] + c[x] + d[x] + e[x] + f[x] + g[x]
  {
  }

  lemma OccurrencesIn<R>(p: Places<R>, m: multiset<Input<R>>, x: Input<R>)
    requires m == Parts(p.buffered) + Parts(p.undispatched) + Parts(p.abandoned) + Parts(p.queued)
                  + Parts(p.writing) + Parts(p.written) + Parts(p.failed)
    ensures Occurrences(p, x) == m[x]
  {
    SumOfSevenAt(m, Parts(p.buffered), Parts(p.undispatched), Parts(p.abandoned), Parts(p.queued),
                 Parts(p.writing), Parts(p.written), Parts(p.failed), x);
  }

  lemma OccurrencesCounted<R(!new)>(cfg: Config<R>, s: State<R>, x: Input<R>)
    requires InputsSafe(cfg, s) && OutAccounted(s)
    ensures Occurrences(PlacesOf(s), x) == if x in s.accepted then 1 else 0
  {
    PlacesConserve(cfg, s);
    OccurrencesIn(PlacesOf(s), multiset(s.accepted), x);
    AcceptedMultiplicity(s.accepted, x);
  }

  /** The row lies under the key of its value and is the fold of its own accepted inputs in acceptance order. */
  ghost predicate FoldOfItsInputs<R>(cfg: Config<R>, s: State<R>, r: Row<R>) {
    && cfg.table.key(r.value) == r.key
    && Fold(cfg.table.merge, Recs(r.parts)) == Some(r.value)
    && (forall i :: 0 <= i < |r.parts| ==> r.parts[i] in s.accepted && cfg.table.key(r.parts[i].rec) == r.key)
    && (forall i, j :: 0 <= i < j < |r.parts| ==> r.parts[i].id < r.parts[j].id)
  }

  lemma RowsAreFolds<R(!new)>(cfg: Config<R>, s: State<R>)
    requires Usable(cfg) && Reachable(cfg, s)
    ensures forall r :: r in AllRows(s) ==> FoldOfItsInputs(cfg, s, r)
  {
    ReachableInputs(cfg, s);
    forall r | r in AllRows(s)
      ensures FoldOfItsInputs(cfg, s, r)
    {
      assert GoodRow(cfg, r);
      forall i | 0 <= i < |r.parts|
        ensures r.parts[i] in s.accepted
      {
        PartOfRowAccepted(s, r, i);
      }
    }
  }

  lemma {:induction false} RecsLength<R>(parts: seq<Input<R>>)
    ensures |Recs(parts)| == |parts|
    ensures parts != [] ==> Recs(parts)[|parts| - 1] == parts[|parts| - 1].rec
  {
    if parts == [] {
    } else {
      RecsLength(parts[..|parts| - 1]);
    }
  }

  /** In an overwriting table every row is its last input; the earlier ones are overwritten. */
  lemma OverwrittenByLast<R(!new)>(cfg: Config<R>, s: State<R>)
    requires Usable(cfg) && Reachable(cfg, s) && Overwrites(cfg.table)
    ensures forall r :: r in AllRows(s) ==> r.parts != [] && r.value == r.parts[|r.parts| - 1].rec
  {
    ReachableInputs(cfg, s);
    forall r | r in AllRows(s)
      ensures r.parts != [] && r.value == r.parts[|r.parts| - 1].rec
    {
      assert GoodRow(cfg, r);
      RecsLength(r.parts);
      OverwriteKeepsLast(cfg.table, Recs(r.parts));
    }
  }

  /** Every platform row carries, field by field, what its inputs say. */
  lemma PlatformRowMeaning(cfg: Config<PlatformRecord>, s: State<PlatformRecord>)
    requires cfg.table == PLATFORM && Usable(cfg) && Reachable(cfg, s)
    ensures forall r :: r in AllRows(s) ==>
                          Recs(r.parts) != [] && MergedFieldsOf(Recs(r.parts), r.value) && UnmergedFieldsOf(Recs(r.parts), r.value)
  {
    RowsAreFolds(cfg, s);
    forall r | r in AllRows(s)
      ensures Recs(r.parts) != [] && MergedFieldsOf(Recs(r.parts), r.value) && UnmergedFieldsOf(Recs(r.parts), r.value)
    {
      assert FoldOfItsInputs(cfg, s, r);
      PlatformFoldMeaning(Recs(r.parts));
    }
  }

  lemma DrainedGrowsByStep<R>(cfg: Config<R>, s: State<R>, a: Action<R>)
    requires MasksToShard(cfg.shardOf) && Step(cfg, s, a).Some?
    ensures s.drained <= Step(cfg, s, a).value.drained
  {
    if !a.DrainShard? && !a.Absorb? {
      OnlyAbsorbAndDrain(cfg, s, a);
    }
  }

  lemma {:induction false} DrainedGrowsInRun<R>(cfg: Config<R>, s: State<R>, actions: seq<Action<R>>)
    requires MasksToShard(cfg.shardOf) && Run(cfg, s, actions).Some?
    ensures s.drained <= Run(cfg, s, actions).value.drained
    decreases |actions|
  {
    if actions == [] {
    } else {
      DrainedGrowsInRun(cfg, s, actions[..|actions| - 1]);
      DrainedGrowsByStep(cfg, Run(cfg, s, actions[..|actions| - 1]).value, actions[|actions| - 1]);
    }
  }

  lemma RunOut<R(!new)>(cfg: Config<R>, s: State<R>, actions: seq<Action<R>>)
    requires Usable(cfg) && Reachable(cfg, s) && Run(cfg, s, actions).Some?
    ensures OutAccounted(Run(cfg, s, actions).value)
  {
    ReachableInv(cfg, s);
    RunInv(cfg, s, actions, Run(cfg, s, actions).value);
  }

  /** Drained rows are frozen: whatever happens after state s, the rows drained so far stay what they were,
      values included, and each of them is still in one of the places outside the buffer. */
  lemma DrainedFrozen<R(!new)>(cfg: Config<R>, s: State<R>, actions: seq<Action<R>>)
    requires Usable(cfg) && Reachable(cfg, s) && Run(cfg, s, actions).Some?
    ensures var later := Run(cfg, s, actions).value;
            s.drained <= later.drained && OutRows(later) == Gather(later.drained, DrainedRow)
  {
    DrainedGrowsInRun(cfg, s, actions);
    RunOut(cfg, s, actions);
  }

  /** At-least-once delivery of every batch, whoever writes it and however long ago its call returned. */
  lemma BatchDelivery<R(!new)>(cfg: Config<R>, s: State<R>, o: nat)
    requires Usable(cfg) && Reachable(cfg, s) && o < |s.ops|
    ensures Retry.Delivered(cfg.attempts, s.ops[o].write)
  {
    ReachableLedger(cfg, s);
    assert OpKept(cfg, s, o);
  }

  // Counters.

  ghost function BatchLength<R>(o: Op<R>): nat { |o.batch| }

  lemma {:induction false} DrainedCount<R>(drained: seq<Drained<R>>)
    ensures |Gather(drained, DrainedRow)| == |drained|
  {
    if drained == [] {
    } else {
      DrainedCount(drained[1..]);
    }
  }

  /** Counter accounting in every reachable state. */
  lemma CounterAccounting<R(!new)>(cfg: Config<R>, s: State<R>)
    requires Usable(cfg) && Reachable(cfg, s)
    ensures !cfg.table.overwrite ==> |s.accepted| == s.keyCollisions + BufferSize(s.shards) + |s.drained|
    ensures cfg.table.overwrite ==> s.keyCollisions == 0
    ensures |s.accepted| == s.processed + Total(s.adders, Uncounted)
    ensures s.written == Total(s.ops, CountedRows) && s.errors == Total(s.ops, CountedError)
    ensures s.written <= s.processed + Total(s.adders, Uncounted)
  {
    ReachableInv(cfg, s);
    WrittenWithinDrained(s);
  }

  lemma CountedWithinOps<R>(ops: seq<Op<R>>)
    ensures Total(ops, CountedRows) <= |Gather(ops, OpRows)|
  {
    TotalMonotone(ops, CountedRows, BatchLength);
    GatherSize(ops, OpRows, BatchLength);
  }

  lemma WrittenWithinDrained<R>(s: State<R>)
    requires OutAccounted(s)
    ensures Total(s.ops, CountedRows) <= |s.drained|
  {
    CountedWithinOps(s.ops);
    DrainedCount(s.drained);
    assert |OutRows(s)| == |Gather(s.flushes, FlushRows)| + |Gather(s.channel, BatchRows)| + |Gather(s.ops, OpRows)|;
  }

  /** A Len call that has finished returned a size between the buffer's size at its start less what was
      drained meanwhile, and that size plus what was inserted meanwhile. */
  lemma LenBounds<R(!new)>(cfg: Config<R>, s: State<R>, i: nat)
    requires Usable(cfg) && Reachable(cfg, s) && i < |s.readers| && s.readers[i].shard == SHARD_COUNT
    ensures var r := s.readers[i];
            r.size - (|s.drained| - r.drained) <= r.total <= r.size + (s.inserted - r.inserted)
  {
    ReachableInv(cfg, s);
    assert ReaderBounded(s, s.readers[i]);
    assert s.shards[SHARD_COUNT..] == [];
  }

  // Drains.

  /** When a flush has drained all shards, nothing accepted before it began is still buffered. */
  lemma NothingOldBuffered<R(!new)>(cfg: Config<R>, s: State<R>, f: nat, j: nat, k: Bytes, p: nat)
    requires Usable(cfg) && Reachable(cfg, s) && f < |s.flushes| && ShardsDone(s.flushes[f].stage) == SHARD_COUNT
    requires j < |s.shards| && k in s.shards[j] && p < |s.shards[j][k].parts|
    ensures s.shards[j][k].parts[p].id >= s.flushes[f].mark
  {
    ReachableMarks(cfg, s);
    assert RowsSince(s.shards[j], s.lastDrain[j]);
  }

  lemma BufferedInputLocated<R>(shards: seq<map<Bytes, Row<R>>>, x: Input<R>) returns (j: nat, k: Bytes, p: nat)
    requires x in Parts(BufferRows(shards))
    ensures j < |shards| && k in shards[j] && p < |shards[j][k].parts| && shards[j][k].parts[p] == x
  {
    var r := PartFromRow(BufferRows(shards), x);
    GatherMember(shards, ShardRows, r);
    j :| 0 <= j < |shards| && r in ShardRows(shards[j]);
    assert r in shards[j].Values;
    k :| k in shards[j] && shards[j][k] == r;
    p :| 0 <= p < |r.parts| && r.parts[p] == x;
  }

  lemma {:induction false} PartFromRow<R>(rows: multiset<Row<R>>, x: Input<R>) returns (r: Row<R>)
    requires x in Parts(rows)
    ensures r in rows && x in r.parts
    decreases |rows|
  {
    r :| r in rows;
    PartsRemove(rows, r);
    if x !in r.parts {
      r := PartFromRow(rows - multiset{r}, x);
    }
  }

  /** A sole drainer takes out everything that was buffered when it began: an input accepted earlier was
      either already drained then, or is among the rows this flush drained. */
  lemma SoleDrainerTakesAll<R(!new)>(cfg: Config<R>, s: State<R>, f: nat, n: nat, x: Input<R>)
    requires Usable(cfg) && Reachable(cfg, s) && f < |s.flushes| && ShardsDone(s.flushes[f].stage) == SHARD_COUNT
    requires n == s.flushes[f].from && n <= |s.drained|
    requires forall d :: d in s.drained[n..] ==> d.flush == f
    requires x in s.accepted && x.id < s.flushes[f].mark
    ensures x in Parts(Gather(s.drained[..n], DrainedRow)) || x in Parts(Gather(s.drained[n..], DrainedRow))
  {
    ReachableInputs(cfg, s);
    SplitDrained(s, n);
    InOneOfThree(s.accepted, Parts(BufferRows(s.shards)), Parts(Gather(s.drained[..n], DrainedRow)),
                 Parts(Gather(s.drained[n..], DrainedRow)), x);
    if x in Parts(BufferRows(s.shards)) {
      OldInputNotBuffered(cfg, s, f, x);
    }
  }

  lemma InOneOfThree<T>(all: seq<T>, a: multiset<T>, b: multiset<T>, c: multiset<T>, x: T)
    requires x in all && multiset(all) == a + b + c
    ensures x in a || x in b || x in c
  {
    assert x in multiset(all);
  }

  lemma SplitDrained<R>(s: State<R>, n: nat)
    requires Conserved(s) && n <= |s.drained|
    ensures multiset(s.accepted) == Parts(BufferRows(s.shards)) + Parts(Gather(s.drained[..n], DrainedRow))
                                    + Parts(Gather(s.drained[n..], DrainedRow))
  {
    assert s.drained == s.drained[..n] + s.drained[n..];
    GatherConcat(s.drained[..n], s.drained[n..], DrainedRow);
    PartsSum(Gather(s.drained[..n], DrainedRow), Gather(s.drained[n..], DrainedRow));
    PartsSum(BufferRows(s.shards), Gather(s.drained, DrainedRow));
  }

  /** The same as NothingOldBuffered, for inputs of the buffered rows. */
  lemma OldInputNotBuffered<R(!new)>(cfg: Config<R>, s: State<R>, f: nat, x: Input<R>)
    requires Usable(cfg) && Reachable(cfg, s) && f < |s.flushes| && ShardsDone(s.flushes[f].stage) == SHARD_COUNT
    requires x in Parts(BufferRows(s.shards))
    ensures x.id >= s.flushes[f].mark
  {
    var j, k, p := BufferedInputLocated(s.shards, x);
    NothingOldBuffered(cfg, s, f, j, k, p);
  }

  /** One flush never holds two rows of the same key. */
  lemma FlushKeysDistinct<R(!new)>(cfg: Config<R>, s: State<R>, f: nat)
    requires Usable(cfg) && Reachable(cfg, s) && f < |s.flushes|
    ensures DistinctKeys(s.flushes[f].rows)
  {
    ReachableInv(cfg, s);
  }

  // Dispatch.

  /** The machine follows the dispatch loop: what a flush has dispatched are the first batches of the slice it
      drained, its remaining rows are what the other batches hold, and it ends without error only with all sent. */
  lemma DispatchFollowsLoop<R(!new)>(cfg: Config<R>, s: State<R>, f: nat)
    requires Usable(cfg) && Reachable(cfg, s) && f < |s.flushes|
    ensures var all, sent := Batching.Batches(DrainedRowsOf(s.drained, f), cfg.maxBatch), SentBy(s.dispatched, f);
            && sent <= all && Batching.Concat(all[|sent|..]) == s.flushes[f].rows
            && (s.flushes[f].stage == Finished(true) ==> sent == all)
            && (s.flushes[f].stage.Draining? ==> sent == [])
  {
    ReachableDispatch(cfg, s);
    assert FlushDispatched(cfg, s, f);
    var rest := Batching.Batches(s.flushes[f].rows, cfg.maxBatch);
    Batching.BatchesPartition(s.flushes[f].rows, cfg.maxBatch);
    assert (SentBy(s.dispatched, f) + rest)[|SentBy(s.dispatched, f)|..] == rest;
  }

  /** While a flush is not held by a direct write: it has ended with an error if and only if one of its direct
      writes has failed. Until it ends, all direct writes it is not held by have succeeded. */
  lemma ErrorIffDirectFailed<R(!new)>(cfg: Config<R>, s: State<R>, f: nat)
    requires Usable(cfg) && Reachable(cfg, s) && f < |s.flushes|
    ensures !s.flushes[f].stage.Direct? ==> (s.flushes[f].stage == Finished(false) <==> EndedByFailure(s, f))
    ensures s.flushes[f].stage != Finished(false) ==>
              forall o :: 0 <= o < |s.ops| && !s.ops[o].byWriter && s.ops[o].owner == f && s.flushes[f].stage != Direct(o) ==>
                            s.ops[o].write.verdict.Succeeded?
  {
    ReachableDispatch(cfg, s);
    forall o | 0 <= o < |s.ops| && !s.ops[o].byWriter && s.ops[o].owner == f && s.flushes[f].stage != Finished(false)
               && s.flushes[f].stage != Direct(o)
      ensures s.ops[o].write.verdict.Succeeded?
    {
      assert DirectKept(s, o);
    }
    if EndedByFailure(s, f) {
      var o :| FailedDirect(s, o, f);
      assert DirectKept(s, o);
    }
  }

  /** The flush that holds an abandoned input. */
  lemma AbandoningFlush<R>(flushes: seq<Flush<R>>, x: Input<R>) returns (f: nat)
    requires x in Parts(Gather(flushes, AbandonedRows))
    ensures f < |flushes| && flushes[f].stage.Finished? && x in Parts(FlushRows(flushes[f])) && flushes[f].rows != []
  {
    var r := PartFromRow(Gather(flushes, AbandonedRows), x);
    GatherMember(flushes, AbandonedRows, r);
    f :| 0 <= f < |flushes| && r in AbandonedRows(flushes[f]);
    PartsRemove(FlushRows(flushes[f]), r);
    assert x in multiset(r.parts);
  }

  /** An input is abandoned only behind a failed direct write of the flush that holds it. */
  lemma AbandonedBehindFailure<R(!new)>(cfg: Config<R>, s: State<R>, x: Input<R>) returns (f: nat, o: nat)
    requires Usable(cfg) && Reachable(cfg, s) && x in Parts(PlacesOf(s).abandoned)
    ensures f < |s.flushes| && s.flushes[f].stage == Finished(false) && x in Parts(FlushRows(s.flushes[f]))
    ensures FailedDirect(s, o, f)
  {
    ReachableDispatch(cfg, s);
    f := AbandoningFlush(s.flushes, x);
    assert EndedByFailure(s, f);
    o :| FailedDirect(s, o, f);
  }

  /** The channel is first in, first out: writers have received the batches in the order in which flushes sent
      them, and the channel holds the others in that order. */
  lemma ChannelInOrder<R(!new)>(cfg: Config<R>, s: State<R>)
    requires Usable(cfg) && Reachable(cfg, s)
    ensures QueuedBatches(s.dispatched) == WriterBatches(s.ops) + s.channel
  {
    ReachableDispatch(cfg, s);
  }

  /** No writer is gone before the stop channel is closed. */
  lemma WritersRunUntilStop<R(!new)>(cfg: Config<R>, s: State<R>, w: nat)
    requires Usable(cfg) && Reachable(cfg, s) && w < |s.writers| && !s.stopped
    ensures s.writers[w] != Exited
  {
    ReachableDispatch(cfg, s);
  }

  lemma ReachableShape<R(!new)>(cfg: Config<R>, s: State<R>)
    requires Usable(cfg) && Reachable(cfg, s)
    ensures |s.shards| == SHARD_COUNT == |s.lastDrain|
  {
    ReachableInputs(cfg, s);
    ReachableMarks(cfg, s);
  }

  /** An idle writer chooses freely: it can take a queued batch, also after the close, and once the channel is
      closed it can leave, also with batches queued. */
  lemma WriterChooses<R(!new)>(cfg: Config<R>, s: State<R>, w: nat)
    requires Usable(cfg) && Reachable(cfg, s) && w < |s.writers| && s.writers[w] == Idle
    ensures Step(cfg, s, Receive(w)).Some? <==> s.channel != []
    ensures Step(cfg, s, Exit(w)).Some? <==> s.stopped
    ensures s.channel != [] ==>
      var s' := Step(cfg, s, Receive(w)).value;
      s'.writers[w] == Busy(|s.ops|) && s'.ops == s.ops + [Op(s.channel[0], true, w, Retry.UNSTARTED, false)]
  {
    ReachableShape(cfg, s);
  }

  // Shutdown.

  /** Stop has been called and every goroutine has come to rest. */
  ghost predicate Terminal<R>(s: State<R>) {
    && s.stopped
    && (forall i :: 0 <= i < |s.adders| ==> s.adders[i].todo == [])
    && (forall f :: 0 <= f < |s.flushes| ==> s.flushes[f].stage.Finished?)
    && (forall w :: 0 <= w < |s.writers| ==> s.writers[w] == Exited)
  }

  lemma {:induction false} GatherNothing<V, T>(s: seq<V>, f: V -> multiset<T>)
    requires forall v :: v in s ==> f(v) == multiset{}
    ensures Gather(s, f) == multiset{}
  {
    if s == [] {
    } else {
      GatherNothing(s[1..], f);
    }
  }

  lemma {:induction false} BoundedGather<V, T>(s: seq<V>, f: V -> multiset<T>, bound: nat)
    requires forall v :: v in s ==> |f(v)| <= bound
    ensures |Gather(s, f)| <= |s| * bound
  {
    if s == [] {
    } else {
      BoundedGather(s[1..], f, bound);
      assert |s| * bound == bound + |s[1..]| * bound;
    }
  }

  lemma TerminalNothingRunning<R(!new)>(cfg: Config<R>, s: State<R>)
    requires Usable(cfg) && Reachable(cfg, s) && Terminal(s)
    ensures PlacesOf(s).undispatched == multiset{} && PlacesOf(s).writing == multiset{}
  {
    GatherNothing(s.flushes, UndispatchedRows);
    ReachableLedger(cfg, s);
    TerminalWritesEnded(cfg, s);
    GatherNothing(s.ops, RunningRows);
  }

  lemma ReachableDispatch<R(!new)>(cfg: Config<R>, s: State<R>)
    requires Usable(cfg) && Reachable(cfg, s)
    ensures BatchesFit(cfg, s) && DirectsKept(s) && DispatchKept(cfg, s) && QueueKept(s) && WritersStay(s)
  {
    ReachableInv(cfg, s);
  }

  lemma ReachableLedger<R(!new)>(cfg: Config<R>, s: State<R>)
    requires Usable(cfg) && Reachable(cfg, s)
    ensures LedgerKept(cfg, s)
  {
    ReachableInv(cfg, s);
  }

  lemma TerminalWritesEnded<R(!new)>(cfg: Config<R>, s: State<R>)
    requires LedgerKept(cfg, s) && Terminal(s)
    ensures forall o :: o in s.ops ==> !o.write.verdict.Running?
  {
    forall o | 0 <= o < |s.ops|
      ensures !s.ops[o].write.verdict.Running?
    {
      assert OpKept(cfg, s, o);
    }
  }

  lemma ReachableBatches<R(!new)>(cfg: Config<R>, s: State<R>)
    requires Usable(cfg) && Reachable(cfg, s)
    ensures BatchesFit(cfg, s)
  {
    ReachableInv(cfg, s);
  }

  lemma TimesMonotone(a: nat, b: nat, c: nat)
    requires a <= b
    ensures a * c <= b * c
  {
  }

  lemma ChannelBound<R>(channel: seq<seq<Row<R>>>, maxBatch: nat)
    requires |channel| <= CHANNEL_CAPACITY && forall b :: b in channel ==> |b| <= maxBatch
    ensures |Gather(channel, BatchRows)| <= CHANNEL_CAPACITY * maxBatch
  {
    BoundedGather(channel, BatchRows, maxBatch);
    TimesMonotone(|channel|, CHANNEL_CAPACITY, maxBatch);
  }

  lemma AtRestPlaces<R(!new)>(cfg: Config<R>, s: State<R>)
    requires Usable(cfg) && Reachable(cfg, s) && Terminal(s)
    ensures var p := PlacesOf(s);
            multiset(s.accepted) == Parts(p.written) + Parts(p.failed) + Parts(p.abandoned) + Parts(p.queued) + Parts(p.buffered)
  {
    ReachableInputs(cfg, s);
    PlacesConserve(cfg, s);
    TerminalNothingRunning(cfg, s);
    assert Parts<R>(multiset{}) == multiset{};
  }

  /** A buffered input was accepted after its own shard was last drained, by whichever flush. */
  lemma BufferedSinceLastDrain<R(!new)>(cfg: Config<R>, s: State<R>, x: Input<R>)
    requires Usable(cfg) && Reachable(cfg, s) && x in Parts(BufferRows(s.shards))
    ensures |s.lastDrain| == SHARD_COUNT && s.lastDrain[cfg.shardOf(cfg.table.key(x.rec))] <= x.id
  {
    ReachableMarks(cfg, s);
    ReachableInputs(cfg, s);
    var j, k, p := BufferedInputLocated(s.shards, x);
    RowBuffered(s.shards, j, k);
    assert GoodRow(cfg, s.shards[j][k]) && RowsSince(s.shards[j], s.lastDrain[j]);
  }

  lemma RowBuffered<R>(shards: seq<map<Bytes, Row<R>>>, j: nat, k: Bytes)
    requires j < |shards| && k in shards[j]
    ensures shards[j][k] in BufferRows(shards)
  {
    assert shards[j][k] in shards[j].Values;
    GatherMember(shards, ShardRows, shards[j][k]);
  }

  lemma LateInputsBuffered<R(!new)>(cfg: Config<R>, s: State<R>)
    requires Usable(cfg) && Reachable(cfg, s)
    ensures |s.lastDrain| == SHARD_COUNT
    ensures forall x :: x in Parts(PlacesOf(s).buffered) ==> s.lastDrain[cfg.shardOf(cfg.table.key(x.rec))] <= x.id
  {
    ReachableMarks(cfg, s);
    forall x | x in Parts(PlacesOf(s).buffered)
      ensures s.lastDrain[cfg.shardOf(cfg.table.key(x.rec))] <= x.id
    {
      BufferedSinceLastDrain(cfg, s, x);
    }
  }

  lemma FlushesDrainedAll<R(!new)>(cfg: Config<R>, s: State<R>)
    requires Usable(cfg) && Reachable(cfg, s) && Terminal(s)
    ensures |s.lastDrain| == SHARD_COUNT
    ensures forall f, j :: 0 <= f < |s.flushes| && 0 <= j < SHARD_COUNT ==> s.flushes[f].mark <= s.lastDrain[j]
  {
    ReachableMarks(cfg, s);
  }

  lemma AbandonedAllBehindFailure<R(!new)>(cfg: Config<R>, s: State<R>)
    requires Usable(cfg) && Reachable(cfg, s)
    ensures forall x :: x in Parts(PlacesOf(s).abandoned) ==> HeldBehindFailure(s, x)
  {
    forall x | x in Parts(PlacesOf(s).abandoned)
      ensures HeldBehindFailure(s, x)
    {
      var f, o := AbandonedBehindFailure(cfg, s, x);
    }
  }

  /** The input is in a row that a flush kept when one of its direct writes failed. */
  ghost predicate HeldBehindFailure<R>(s: State<R>, x: Input<R>) {
    exists f :: 0 <= f < |s.flushes| && x in Parts(FlushRows(s.flushes[f])) && EndedByFailure(s, f)
  }

  /** Shutdown bound: at rest every accepted input is written, failed, abandoned behind a failed direct write of
      its flush, stranded in the channel (at most 100 batches), or still buffered because it was accepted after
      the final drain of its shard, which no flush began after. */
  lemma ShutdownBound<R(!new)>(cfg: Config<R>, s: State<R>)
    requires Usable(cfg) && Reachable(cfg, s) && Terminal(s)
    ensures var p := PlacesOf(s);
            multiset(s.accepted) == Parts(p.written) + Parts(p.failed) + Parts(p.abandoned) + Parts(p.queued) + Parts(p.buffered)
    ensures |PlacesOf(s).queued| <= 100 * cfg.maxBatch
    ensures forall x :: x in Parts(PlacesOf(s).abandoned) ==> HeldBehindFailure(s, x)
    ensures |s.lastDrain| == SHARD_COUNT
    ensures forall x :: x in Parts(PlacesOf(s).buffered) ==> s.lastDrain[cfg.shardOf(cfg.table.key(x.rec))] <= x.id
    ensures forall f, j :: 0 <= f < |s.flushes| && 0 <= j < SHARD_COUNT ==> s.flushes[f].mark <= s.lastDrain[j]
  {
    AtRestPlaces(cfg, s);
    ReachableBatches(cfg, s);
    ChannelBound(s.channel, cfg.maxBatch);
    AbandonedAllBehindFailure(cfg, s);
    LateInputsBuffered(cfg, s);
    FlushesDrainedAll(cfg, s);
  }

  /** Whenever no Stop call is between its look and its close: the stop channel has been closed at most once
      if and only if no two Stop calls overlapped. Once closed, a further Stop changes nothing. */
  lemma ClosedOnce<R(!new)>(cfg: Config<R>, s: State<R>)
    requires Usable(cfg) && Reachable(cfg, s)
    ensures s.stopping == 0 ==> (s.closes <= 1 <==> !s.overlapped)
    ensures s.stopped <==> s.closes > 0
    ensures s.stopped ==> AfterCheckStop(s) == s
  {
    ReachableInv(cfg, s);
  }

  /** Stop calls that have looked can all go on to close. After that the channel was closed at most once if
      and only if the calls did not overlap: every overlap lets the second close, which panics, happen. */
  lemma OverlapClosesTwice<R(!new)>(cfg: Config<R>, origin: State<R>, s: State<R>) returns (s': State<R>)
    requires Usable(cfg) && Onward(cfg, origin, s)
    ensures Onward(cfg, origin, s') && s'.stopping == 0 && s'.closes == s.closes + s.stopping
    ensures s'.closes >= 2 <==> s.overlapped
    decreases s.stopping
  {
    ReachableInv(cfg, s);
    if s.stopping == 0 {
      s' := s;
    } else {
      var next := Take(cfg, origin, s, CloseStop);
      s' := OverlapClosesTwice(cfg, origin, next);
    }
  }

  /** Overlapping Stop calls are possible: the look and the close are separate steps. */
  lemma DoubleCloseReachable<R(!new)>(cfg: Config<R>, s0: State<R>) returns (s: State<R>)
    requires Usable(cfg) && Init(s0)
    ensures Reachable(cfg, s) && s.closes == 2
  {
    InitOnward(cfg, s0);
    var s1 := Take(cfg, s0, s0, CheckStop);
    var s2 := Take(cfg, s0, s1, CheckStop);
    s := OverlapClosesTwice(cfg, s0, s2);
  }

  // The shards refine one flat map.

  ghost function KeysOf<R>(shards: seq<map<Bytes, Row<R>>>): set<Bytes> {
    set i, k | 0 <= i < |shards| && k in shards[i] :: k
  }

  /** The flat buffer that the shards denote. */
  ghost function Flat<R>(cfg: Config<R>, shards: seq<map<Bytes, Row<R>>>): map<Bytes, R>
    requires Placed(cfg, shards)
  {
    map k | k in KeysOf(shards) && cfg.shardOf(k) < |shards| && k in shards[cfg.shardOf(k)] :: shards[cfg.shardOf(k)][k].value
  }

  lemma FlatLookup<R>(cfg: Config<R>, shards: seq<map<Bytes, Row<R>>>, k: Bytes)
    requires Placed(cfg, shards) && MasksToShard(cfg.shardOf)
    ensures k in Flat(cfg, shards) <==> k in shards[cfg.shardOf(k)]
    ensures k in Flat(cfg, shards) ==> Flat(cfg, shards)[k] == shards[cfg.shardOf(k)][k].value
  {
    if k in shards[cfg.shardOf(k)] {
      assert k in KeysOf(shards);
    }
  }

  /** Absorbing into shards is absorbing into the flat map; draining a shard removes exactly its keys;
      nothing else changes the flat map. */
  lemma FlatRefinement<R(!new)>(cfg: Config<R>, s: State<R>, a: Action<R>)
    requires MasksToShard(cfg.shardOf) && KeyStable(cfg.table) && Placed(cfg, s.shards) && |s.lastDrain| == SHARD_COUNT && Enabled(cfg, s, a)
    ensures Placed(cfg, Next(cfg, s, a).shards)
    ensures Flat(cfg, Next(cfg, s, a).shards) ==
            match a
            case Absorb(i) => FlatBuffer.Absorb(cfg.table, Flat(cfg, s.shards), s.adders[i].todo[0])
            case DrainShard(i, _) => Flat(cfg, s.shards) - s.shards[s.flushes[i].stage.shard].Keys
            case _ => Flat(cfg, s.shards)
  {
    match a {
      case Absorb(i) =>
        AbsorbKeepsPlaced(cfg, s, i);
        AbsorbIsFlat(cfg, s, i);
      case DrainShard(i, order) =>
        DrainIsFlat(cfg, s, i, order);
      case _ =>
        OnlyAbsorbAndDrain(cfg, s, a);
    }
  }

  lemma AbsorbIsFlat<R(!new)>(cfg: Config<R>, s: State<R>, i: nat)
    requires MasksToShard(cfg.shardOf) && Placed(cfg, s.shards) && i < |s.adders| && s.adders[i].todo != []
    requires Placed(cfg, AfterAbsorb(cfg, s, i).shards)
    ensures Flat(cfg, AfterAbsorb(cfg, s, i).shards) == FlatBuffer.Absorb(cfg.table, Flat(cfg, s.shards), s.adders[i].todo[0])
  {
    var shards' := AfterAbsorb(cfg, s, i).shards;
    var want := FlatBuffer.Absorb(cfg.table, Flat(cfg, s.shards), s.adders[i].todo[0]);
    FlatLookup(cfg, s.shards, cfg.table.key(s.adders[i].todo[0]));
    forall k
      ensures k in Flat(cfg, shards') <==> k in want
      ensures k in want ==> Flat(cfg, shards')[k] == want[k]
    {
      FlatLookup(cfg, s.shards, k);
      FlatLookup(cfg, shards', k);
    }
  }

  lemma DrainIsFlat<R(!new)>(cfg: Config<R>, s: State<R>, i: nat, order: seq<Row<R>>)
    requires MasksToShard(cfg.shardOf) && Placed(cfg, s.shards) && |s.lastDrain| == SHARD_COUNT
    requires Enabled(cfg, s, DrainShard(i, order))
    ensures Placed(cfg, AfterDrainShard(s, i, order).shards)
    ensures Flat(cfg, AfterDrainShard(s, i, order).shards) == Flat(cfg, s.shards) - s.shards[s.flushes[i].stage.shard].Keys
  {
    var shards' := AfterDrainShard(s, i, order).shards;
    var want := Flat(cfg, s.shards) - s.shards[s.flushes[i].stage.shard].Keys;
    forall k
      ensures k in Flat(cfg, shards') <==> k in want
      ensures k in want ==> Flat(cfg, shards')[k] == want[k]
    {
      FlatLookup(cfg, s.shards, k);
      FlatLookup(cfg, shards', k);
    }
  }

  /** All five tables of the buffer manager are instances. */
  lemma TablesUsable(maxBatch: nat, attempts: int)
    requires maxBatch >= 1
    ensures Usable(Config(PLATFORM, Sharding.ShardIndex, maxBatch, attempts))
    ensures Usable(Config(INTERFACE, Sharding.ShardIndex, maxBatch, attempts))
    ensures Usable(Config(SUBINTERFACE, Sharding.ShardIndex, maxBatch, attempts))
    ensures Usable(Config(REPORT, Sharding.ShardIndex, maxBatch, attempts)) && Overwrites(REPORT)
  {
    Sharding.ShardIndexMasks();
    PlatformLaws();
    InterfaceLaws();
    SubinterfaceLaws();
    ReportLaws();
  }
}
