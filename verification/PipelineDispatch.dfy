/** What a flush has dispatched: the machine follows the dispatch loop batch by batch, stops only behind a
    failed direct write, and the channel hands batches on in the order in which they were sent. */
module PipelineDispatch {
  import opened Sequences
  import opened ShardedMaps
  import opened Pipeline
  import opened PipelineRows
  import opened PipelineControl
  import Batching
  import Retry

  // Direct writes.

  ghost predicate FailedDirect<R>(s: State<R>, o: nat, f: nat) {
    o < |s.ops| && !s.ops[o].byWriter && s.ops[o].owner == f && s.ops[o].write.verdict.Failed?
  }

  /** A direct write that has not succeeded holds its flush, or has failed and ended it. */
  ghost predicate DirectKept<R>(s: State<R>, o: nat)
    requires o < |s.ops|
  {
    var op := s.ops[o];
    op.byWriter
    || (op.owner < |s.flushes|
        && (op.write.verdict.Succeeded? || s.flushes[op.owner].stage == Direct(o)
            || (op.write.verdict.Failed? && s.flushes[op.owner].stage == Finished(false))))
  }

  ghost predicate DirectsKept<R>(s: State<R>) {
    && (forall o :: 0 <= o < |s.ops| ==> DirectKept(s, o))
    && (forall f :: 0 <= f < |s.flushes| && s.flushes[f].stage == Finished(false) ==> EndedByFailure(s, f))
  }

  ghost predicate EndedByFailure<R>(s: State<R>, f: nat) { exists o :: FailedDirect(s, o, f) }

  /** Flushes may change freely unless a direct write is concerned. */
  lemma StagesKeepDirects<R>(s: State<R>, s': State<R>)
    requires DirectsKept(s) && s'.ops == s.ops && |s.flushes| <= |s'.flushes|
    requires forall f :: 0 <= f < |s.flushes| && (s.flushes[f].stage.Direct? || s.flushes[f].stage == Finished(false)) ==>
                           s'.flushes[f].stage == s.flushes[f].stage
    requires forall f :: 0 <= f < |s'.flushes| && s'.flushes[f].stage == Finished(false) ==>
                           f < |s.flushes| && s.flushes[f].stage == Finished(false)
    ensures DirectsKept(s')
  {
    forall o | 0 <= o < |s'.ops|
      ensures DirectKept(s', o)
    {
      assert DirectKept(s, o);
    }
    forall f | 0 <= f < |s'.flushes| && s'.flushes[f].stage == Finished(false)
      ensures EndedByFailure(s', f)
    {
      assert EndedByFailure(s, f);
      var o :| FailedDirect(s, o, f);
      assert FailedDirect(s', o, f);
    }
  }

  lemma NewOpKeepsDirects<R>(s: State<R>, s': State<R>, op: Op<R>)
    requires DirectsKept(s) && s'.ops == s.ops + [op] && |s'.flushes| == |s.flushes|
    requires op.byWriter || (op.owner < |s.flushes| && s'.flushes[op.owner].stage == Direct(|s.ops|))
    requires forall f :: 0 <= f < |s.flushes| && (s.flushes[f].stage.Direct? || s.flushes[f].stage == Finished(false)) ==>
                           s'.flushes[f].stage == s.flushes[f].stage
    requires forall f :: 0 <= f < |s.flushes| && s'.flushes[f].stage == Finished(false) ==> s.flushes[f].stage == Finished(false)
    ensures DirectsKept(s')
  {
    forall o | 0 <= o < |s'.ops|
      ensures DirectKept(s', o)
    {
      assert o < |s.ops| ==> DirectKept(s, o);
    }
    forall f | 0 <= f < |s'.flushes| && s'.flushes[f].stage == Finished(false)
      ensures EndedByFailure(s', f)
    {
      assert EndedByFailure(s, f);
      var o :| FailedDirect(s, o, f);
      assert FailedDirect(s', o, f);
    }
  }

  lemma DispatchKeepsDirects<R>(cfg: Config<R>, s: State<R>, i: nat)
    requires DirectsKept(s) && i < |s.flushes| && !s.flushes[i].stage.Direct? && !s.flushes[i].stage.Finished?
    ensures DirectsKept(AfterDispatch(cfg, s, i))
  {
    var f, s' := s.flushes[i], AfterDispatch(cfg, s, i);
    if f.rows != [] && |s.channel| >= CHANNEL_CAPACITY {
      NewOpKeepsDirects(s, s', Op(f.rows[..NextBatch(cfg, f)], false, i, Retry.UNSTARTED, false));
    } else {
      StagesKeepDirects(s, s');
    }
  }

  lemma ResumeKeepsDirects<R>(s: State<R>, i: nat)
    requires DirectsKept(s) && i < |s.flushes| && s.flushes[i].stage.Direct? && s.flushes[i].stage.op < |s.ops|
    requires var op := s.ops[s.flushes[i].stage.op]; !op.byWriter && op.owner == i && !op.write.verdict.Running?
    ensures DirectsKept(AfterResume(s, i))
  {
    var s' := AfterResume(s, i);
    var at := s.flushes[i].stage.op;
    forall o | 0 <= o < |s'.ops|
      ensures DirectKept(s', o)
    {
      assert DirectKept(s, o);
    }
    forall f | 0 <= f < |s'.flushes| && s'.flushes[f].stage == Finished(false)
      ensures EndedByFailure(s', f)
    {
      if f == i {
        assert FailedDirect(s', at, f);
      } else {
        assert EndedByFailure(s, f);
        var o :| FailedDirect(s, o, f);
        assert FailedDirect(s', o, f);
      }
    }
  }

  /** A write that has ended keeps its verdict. */
  lemma VerdictStays(attempts: int, w: Retry.Write, e: Retry.Event)
    requires Retry.Accounted(attempts, w) && Retry.CanStep(attempts, w, e)
    ensures !w.verdict.Running? ==> Retry.Step(attempts, w, e).verdict == w.verdict
  {
  }

  lemma OpKeepsDirects<R>(s: State<R>, s': State<R>, o: nat, op: Op<R>)
    requires DirectsKept(s) && o < |s.ops| && s'.ops == s.ops[o := op] && s'.flushes == s.flushes
    requires op.byWriter == s.ops[o].byWriter && op.owner == s.ops[o].owner
    requires s.ops[o].write.verdict.Running? || op.write.verdict == s.ops[o].write.verdict
    requires !s.ops[o].byWriter && s.ops[o].write.verdict.Running? ==>
               s.ops[o].owner < |s.flushes| && s.flushes[s.ops[o].owner].stage == Direct(o)
    ensures DirectsKept(s')
  {
    forall p | 0 <= p < |s'.ops|
      ensures DirectKept(s', p)
    {
      assert DirectKept(s, p);
    }
    forall f | 0 <= f < |s'.flushes| && s'.flushes[f].stage == Finished(false)
      ensures EndedByFailure(s', f)
    {
      assert EndedByFailure(s, f);
      var p :| FailedDirect(s, p, f);
      assert FailedDirect(s', p, f);
    }
  }

  lemma WriteKeepsDirects<R>(cfg: Config<R>, s: State<R>, o: nat, e: Retry.Event)
    requires DirectsKept(s) && LedgerKept(cfg, s) && o < |s.ops| && Retry.CanStep(cfg.attempts, s.ops[o].write, e)
    ensures DirectsKept(AfterWrite(cfg, s, o, e))
  {
    assert OpKept(cfg, s, o);
    VerdictStays(cfg.attempts, s.ops[o].write, e);
    OpKeepsDirects(s, AfterWrite(cfg, s, o, e), o, AfterWrite(cfg, s, o, e).ops[o]);
  }

  lemma BeginKeepsDirects<R>(s: State<R>, s': State<R>)
    requires DirectsKept(s) && s'.ops == s.ops && s'.flushes == s.flushes + [NewFlush(s)]
    ensures DirectsKept(s')
  {
    StagesKeepDirects(s, s');
  }

  lemma DrainKeepsDirects<R>(s: State<R>, i: nat, order: seq<Row<R>>)
    requires DirectsKept(s) && |s.shards| == SHARD_COUNT == |s.lastDrain| && i < |s.flushes|
    requires s.flushes[i].stage.Draining? && s.flushes[i].stage.shard < SHARD_COUNT
    ensures DirectsKept(AfterDrainShard(s, i, order))
  {
    StagesKeepDirects(s, AfterDrainShard(s, i, order));
  }

  lemma SameDirects<R>(s: State<R>, s': State<R>)
    requires DirectsKept(s) && s'.ops == s.ops && s'.flushes == s.flushes
    ensures DirectsKept(s')
  {
    StagesKeepDirects(s, s');
  }

  lemma StepKeepsDirects<R>(cfg: Config<R>, s: State<R>, a: Action<R>)
    requires MasksToShard(cfg.shardOf) && |s.shards| == SHARD_COUNT == |s.lastDrain|
    requires Enabled(cfg, s, a) && LedgerKept(cfg, s) && DirectsKept(s)
    ensures DirectsKept(Next(cfg, s, a))
  {
    var s' := Next(cfg, s, a);
    match a {
      case Dispatch(i) => DispatchKeepsDirects(cfg, s, i);
      case Resume(i) => ResumeKeepsDirects(s, i);
      case Receive(i) => NewOpKeepsDirects(s, s', Op(s.channel[0], true, i, Retry.UNSTARTED, false));
      case Write(o, e) => WriteKeepsDirects(cfg, s, o, e);
      case Report(i) => OpKeepsDirects(s, s', s.writers[i].op, s'.ops[s.writers[i].op]);
      case DrainShard(i, order) => DrainKeepsDirects(s, i, order);
      case BeginFlush => BeginKeepsDirects(s, s');
      case CloseStop => BeginKeepsDirects(s, s');
      case _ =>
        OutUntouched(cfg, s, a);
        SameDirects(s, s');
    }
  }

  // The batches of a flush.

  /** The batches that flush number f has dispatched, in order. */
  ghost function SentBy<R>(dispatched: seq<Sent<R>>, f: nat): seq<seq<Row<R>>> {
    if dispatched == [] then []
    else
      var last := dispatched[|dispatched| - 1];
      SentBy(dispatched[..|dispatched| - 1], f) + if last.flush == f then [last.batch] else []
  }

  /** The rows that flush number f has drained, in order. */
  ghost function DrainedRowsOf<R>(drained: seq<Drained<R>>, f: nat): seq<Row<R>> {
    if drained == [] then []
    else
      var last := drained[|drained| - 1];
      DrainedRowsOf(drained[..|drained| - 1], f) + if last.flush == f then [last.row] else []
  }

  lemma SentMore<R>(dispatched: seq<Sent<R>>, x: Sent<R>, f: nat)
    ensures SentBy(dispatched + [x], f) == SentBy(dispatched, f) + if x.flush == f then [x.batch] else []
  {
    assert (dispatched + [x])[..|dispatched|] == dispatched;
  }

  lemma {:induction false} DrainedMore<R>(drained: seq<Drained<R>>, i: nat, order: seq<Row<R>>, f: nat)
    ensures DrainedRowsOf(drained + DrainedBy(i, order), f) == DrainedRowsOf(drained, f) + if i == f then order else []
    decreases |order|
  {
    if order == [] {
      assert drained + DrainedBy(i, order) == drained;
    } else {
      var n := |order| - 1;
      var all := drained + DrainedBy(i, order);
      DrainedMore(drained, i, order[..n], f);
      assert all[..|all| - 1] == drained + DrainedBy(i, order[..n]);
      assert order == order[..n] + [order[n]];
    }
  }

  /** What flush f has dispatched are the first batches of the slice it drained, and its rows are the rest. */
  ghost predicate FlushDispatched<R>(cfg: Config<R>, s: State<R>, f: nat)
    requires cfg.maxBatch >= 1 && f < |s.flushes|
  {
    var rows, sent, all := s.flushes[f].rows, SentBy(s.dispatched, f), DrainedRowsOf(s.drained, f);
    && Batching.Batches(all, cfg.maxBatch) == sent + Batching.Batches(rows, cfg.maxBatch)
    && (s.flushes[f].stage.Draining? ==> sent == [] && rows == all)
  }

  ghost predicate DispatchKept<R>(cfg: Config<R>, s: State<R>)
    requires cfg.maxBatch >= 1
  {
    && (forall x :: x in s.dispatched ==> x.flush < |s.flushes|)
    && (forall d :: d in s.drained ==> d.flush < |s.flushes|)
    && (forall f :: 0 <= f < |s.flushes| ==> FlushDispatched(cfg, s, f))
  }

  lemma {:induction false} NothingSent<R>(dispatched: seq<Sent<R>>, f: nat)
    requires forall x :: x in dispatched ==> x.flush < f
    ensures SentBy(dispatched, f) == []
  {
    if dispatched == [] {
    } else {
      NothingSent(dispatched[..|dispatched| - 1], f);
    }
  }

  lemma {:induction false} NothingDrained<R>(drained: seq<Drained<R>>, f: nat)
    requires forall d :: d in drained ==> d.flush < f
    ensures DrainedRowsOf(drained, f) == []
  {
    if drained == [] {
    } else {
      NothingDrained(drained[..|drained| - 1], f);
    }
  }

  lemma NewFlushKeepsDispatch<R>(cfg: Config<R>, s: State<R>, s': State<R>)
    requires cfg.maxBatch >= 1 && DispatchKept(cfg, s)
    requires s'.flushes == s.flushes + [NewFlush(s)] && s'.dispatched == s.dispatched && s'.drained == s.drained
    ensures DispatchKept(cfg, s')
  {
    NothingSent(s.dispatched, |s.flushes|);
    NothingDrained(s.drained, |s.flushes|);
    forall f | 0 <= f < |s'.flushes|
      ensures FlushDispatched(cfg, s', f)
    {
      assert f < |s.flushes| ==> FlushDispatched(cfg, s, f);
    }
  }

  lemma DrainKeepsDispatch<R>(cfg: Config<R>, s: State<R>, i: nat, order: seq<Row<R>>)
    requires cfg.maxBatch >= 1 && DispatchKept(cfg, s) && |s.shards| == SHARD_COUNT == |s.lastDrain| && i < |s.flushes|
    requires s.flushes[i].stage.Draining? && s.flushes[i].stage.shard < SHARD_COUNT
    ensures DispatchKept(cfg, AfterDrainShard(s, i, order))
  {
    var s' := AfterDrainShard(s, i, order);
    forall f | 0 <= f < |s'.flushes|
      ensures FlushDispatched(cfg, s', f)
    {
      assert FlushDispatched(cfg, s, f);
      DrainedMore(s.drained, i, order, f);
      assert DrainedRowsOf(s.drained, f) + [] == DrainedRowsOf(s.drained, f);
      assert f == i ==> s'.flushes[f].rows == DrainedRowsOf(s'.drained, f);
    }
  }

  lemma Regroup<T>(a: seq<T>, b: seq<T>, c: seq<T>)
    ensures a + (b + c) == (a + b) + c
  {
  }

  /** One more batch dispatched by flush i. */
  lemma SendKeepsDispatch<R>(cfg: Config<R>, s: State<R>, s': State<R>, i: nat, direct: bool)
    requires cfg.maxBatch >= 1 && DispatchKept(cfg, s) && i < |s.flushes| && s.flushes[i].rows != []
    requires var f, n := s.flushes[i], NextBatch(cfg, s.flushes[i]);
             && |s'.flushes| == |s.flushes| && s'.flushes[i].rows == f.rows[n..] && !s'.flushes[i].stage.Draining?
             && s'.dispatched == s.dispatched + [Sent(i, f.rows[..n], direct)]
    requires forall g :: 0 <= g < |s.flushes| && g != i ==> s'.flushes[g] == s.flushes[g]
    requires s'.drained == s.drained
    ensures DispatchKept(cfg, s')
  {
    var rows, n := s.flushes[i].rows, NextBatch(cfg, s.flushes[i]);
    forall f | 0 <= f < |s'.flushes|
      ensures FlushDispatched(cfg, s', f)
    {
      assert FlushDispatched(cfg, s, f);
      SentMore(s.dispatched, Sent(i, rows[..n], direct), f);
      if f == i {
        Batching.BatchesCons(rows, cfg.maxBatch, rows[..n], rows[n..]);
        Regroup(SentBy(s.dispatched, f), [rows[..n]], Batching.Batches(rows[n..], cfg.maxBatch));
      }
    }
  }

  /** Stages may change freely once a flush has drained. */
  lemma StagesKeepDispatch<R>(cfg: Config<R>, s: State<R>, s': State<R>)
    requires cfg.maxBatch >= 1 && DispatchKept(cfg, s) && |s'.flushes| == |s.flushes|
    requires forall f :: 0 <= f < |s.flushes| ==> s'.flushes[f].rows == s.flushes[f].rows
                                                  && (s'.flushes[f].stage.Draining? ==> s.flushes[f].stage.Draining?)
    requires s'.dispatched == s.dispatched && s'.drained == s.drained
    ensures DispatchKept(cfg, s')
  {
    forall f | 0 <= f < |s'.flushes|
      ensures FlushDispatched(cfg, s', f)
    {
      assert FlushDispatched(cfg, s, f);
    }
  }

  lemma DispatchKeepsDispatch<R>(cfg: Config<R>, s: State<R>, i: nat)
    requires cfg.maxBatch >= 1 && DispatchKept(cfg, s) && i < |s.flushes|
    ensures DispatchKept(cfg, AfterDispatch(cfg, s, i))
  {
    var s' := AfterDispatch(cfg, s, i);
    if s.flushes[i].rows == [] {
      StagesKeepDispatch(cfg, s, s');
    } else {
      SendKeepsDispatch(cfg, s, s', i, |s.channel| >= CHANNEL_CAPACITY);
    }
  }

  lemma DispatchedUntouched<R>(cfg: Config<R>, s: State<R>, a: Action<R>)
    requires MasksToShard(cfg.shardOf) && |s.shards| == SHARD_COUNT == |s.lastDrain| && Enabled(cfg, s, a)
    requires !a.Dispatch?
    ensures Next(cfg, s, a).dispatched == s.dispatched
  {
  }

  lemma StepKeepsDispatch<R>(cfg: Config<R>, s: State<R>, a: Action<R>)
    requires MasksToShard(cfg.shardOf) && cfg.maxBatch >= 1 && |s.shards| == SHARD_COUNT == |s.lastDrain|
    requires Enabled(cfg, s, a) && DispatchKept(cfg, s)
    ensures DispatchKept(cfg, Next(cfg, s, a))
  {
    var s' := Next(cfg, s, a);
    match a {
      case Dispatch(i) => DispatchKeepsDispatch(cfg, s, i);
      case DrainShard(i, order) => DrainKeepsDispatch(cfg, s, i, order);
      case BeginFlush => NewFlushKeepsDispatch(cfg, s, s');
      case CloseStop => NewFlushKeepsDispatch(cfg, s, s');
      case Resume(i) => StagesKeepDispatch(cfg, s, s');
      case Receive(i) => StagesKeepDispatch(cfg, s, s');
      case Write(o, e) => StagesKeepDispatch(cfg, s, s');
      case Report(i) => StagesKeepDispatch(cfg, s, s');
      case _ =>
        OutUntouched(cfg, s, a);
        DispatchedUntouched(cfg, s, a);
        StagesKeepDispatch(cfg, s, s');
    }
  }

  // The channel.

  /** The batches that went to the channel, in the order in which they were sent. */
  ghost function QueuedBatches<R>(dispatched: seq<Sent<R>>): seq<seq<Row<R>>> {
    if dispatched == [] then []
    else
      var last := dispatched[|dispatched| - 1];
      QueuedBatches(dispatched[..|dispatched| - 1]) + if last.direct then [] else [last.batch]
  }

  /** The batches that writers received, in the order in which they did. */
  ghost function WriterBatches<R>(ops: seq<Op<R>>): seq<seq<Row<R>>> {
    if ops == [] then []
    else
      var last := ops[|ops| - 1];
      WriterBatches(ops[..|ops| - 1]) + if last.byWriter then [last.batch] else []
  }

  /** The channel is first in, first out. */
  ghost predicate QueueKept<R>(s: State<R>) {
    QueuedBatches(s.dispatched) == WriterBatches(s.ops) + s.channel
  }

  lemma QueuedMore<R>(dispatched: seq<Sent<R>>, x: Sent<R>)
    ensures QueuedBatches(dispatched + [x]) == QueuedBatches(dispatched) + if x.direct then [] else [x.batch]
  {
    assert (dispatched + [x])[..|dispatched|] == dispatched;
  }

  lemma ReceivedMore<R>(ops: seq<Op<R>>, op: Op<R>)
    ensures WriterBatches(ops + [op]) == WriterBatches(ops) + if op.byWriter then [op.batch] else []
  {
    assert (ops + [op])[..|ops|] == ops;
  }

  lemma {:induction false} OpKeepsReceived<R>(ops: seq<Op<R>>, o: nat, op: Op<R>)
    requires o < |ops| && op.batch == ops[o].batch && op.byWriter == ops[o].byWriter
    ensures WriterBatches(ops[o := op]) == WriterBatches(ops)
  {
    var n := |ops| - 1;
    if o == n {
      assert ops[o := op][..n] == ops[..n];
    } else {
      assert ops[o := op][..n] == ops[..n][o := op];
      OpKeepsReceived(ops[..n], o, op);
    }
  }

  lemma DispatchKeepsQueue<R>(cfg: Config<R>, s: State<R>, i: nat)
    requires QueueKept(s) && i < |s.flushes|
    ensures QueueKept(AfterDispatch(cfg, s, i))
  {
    var f := s.flushes[i];
    if f.rows != [] {
      var batch := f.rows[..NextBatch(cfg, f)];
      QueuedMore(s.dispatched, Sent(i, batch, |s.channel| >= CHANNEL_CAPACITY));
      ReceivedMore(s.ops, Op(batch, false, i, Retry.UNSTARTED, false));
      Regroup(WriterBatches(s.ops), s.channel, [batch]);
    }
  }

  lemma ReceiveKeepsQueue<R>(s: State<R>, i: nat)
    requires QueueKept(s) && i < |s.writers| && s.channel != []
    ensures QueueKept(AfterReceive(s, i))
  {
    ReceivedMore(s.ops, Op(s.channel[0], true, i, Retry.UNSTARTED, false));
    assert s.channel == [s.channel[0]] + s.channel[1..];
    Regroup(WriterBatches(s.ops), [s.channel[0]], s.channel[1..]);
  }

  lemma StepKeepsQueue<R>(cfg: Config<R>, s: State<R>, a: Action<R>)
    requires MasksToShard(cfg.shardOf) && |s.shards| == SHARD_COUNT == |s.lastDrain| && Enabled(cfg, s, a) && QueueKept(s)
    ensures QueueKept(Next(cfg, s, a))
  {
    match a {
      case Dispatch(i) => DispatchKeepsQueue(cfg, s, i);
      case Receive(i) => ReceiveKeepsQueue(s, i);
      case Write(o, e) => OpKeepsReceived(s.ops, o, AfterWrite(cfg, s, o, e).ops[o]);
      case Report(i) => OpKeepsReceived(s.ops, s.writers[i].op, AfterReport(s, i).ops[s.writers[i].op]);
      case Resume(i) =>
      case DrainShard(i, order) =>
      case BeginFlush =>
      case CloseStop =>
      case _ =>
        OutUntouched(cfg, s, a);
        DispatchedUntouched(cfg, s, a);
    }
  }

  // Writers.

  /** Writers go on until the stop channel is closed. */
  ghost predicate WritersStay<R>(s: State<R>) {
    forall w :: 0 <= w < |s.writers| && s.writers[w] == Exited ==> s.stopped
  }

  lemma StepKeepsWriters<R>(cfg: Config<R>, s: State<R>, a: Action<R>)
    requires MasksToShard(cfg.shardOf) && |s.shards| == SHARD_COUNT == |s.lastDrain| && Enabled(cfg, s, a) && WritersStay(s)
    ensures WritersStay(Next(cfg, s, a)) && |Next(cfg, s, a).writers| == |s.writers|
  {
  }
}
