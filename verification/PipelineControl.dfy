/** What every interleaving keeps besides the rows themselves: counters, drain marks, distinct keys per
    flush, batch sizes, the ledger of writes, running Len calls and the stop channel. */
module PipelineControl {
  import opened Sequences
  import opened Keys
  import opened ShardedMaps
  import opened Pipeline
  import opened PipelineRows
  import opened PipelineInputs
  import Retry

  // Counters.

  ghost function Uncounted<R>(a: Adder<R>): nat { a.uncounted }

  ghost predicate CountersAgree<R>(cfg: Config<R>, s: State<R>) {
    && s.hits + s.inserted == |s.accepted|
    && s.inserted == BufferSize(s.shards) + |s.drained|
    && s.keyCollisions == (if cfg.table.overwrite then 0 else s.hits)
    && |s.accepted| == s.processed + Total(s.adders, Uncounted)
  }

  lemma AbsorbKeepsCounters<R>(cfg: Config<R>, s: State<R>, i: nat)
    requires MasksToShard(cfg.shardOf) && Placed(cfg, s.shards) && i < |s.adders| && s.adders[i].todo != []
    requires CountersAgree(cfg, s)
    ensures CountersAgree(cfg, AfterAbsorb(cfg, s, i))
  {
    var s' := AfterAbsorb(cfg, s, i);
    var k := cfg.table.key(s.adders[i].todo[0]);
    var n := cfg.shardOf(k);
    TotalUpdate(s.shards, n, s'.shards[n], ShardSize);
    TotalUpdate(s.adders, i, s'.adders[i], Uncounted);
    assert s'.shards[n].Keys == s.shards[n].Keys + {k};
  }

  lemma DrainKeepsCounters<R>(cfg: Config<R>, s: State<R>, i: nat, order: seq<Row<R>>)
    requires MasksToShard(cfg.shardOf) && Placed(cfg, s.shards) && |s.lastDrain| == SHARD_COUNT
    requires Enabled(cfg, s, DrainShard(i, order)) && CountersAgree(cfg, s)
    ensures CountersAgree(cfg, AfterDrainShard(s, i, order))
  {
    var n := s.flushes[i].stage.shard;
    PlacedKeyed(cfg, s.shards, n);
    ShardRowsSize(s.shards[n]);
    TotalUpdate(s.shards, n, map[], ShardSize);
    assert |multiset(order)| == |order|;
  }

  lemma CountersUntouched<R>(cfg: Config<R>, s: State<R>, a: Action<R>)
    requires MasksToShard(cfg.shardOf) && |s.shards| == SHARD_COUNT == |s.lastDrain| && Enabled(cfg, s, a)
    requires !a.Absorb? && !a.DrainShard? && !a.BeginAdd? && !a.Count?
    ensures Next(cfg, s, a).hits == s.hits && Next(cfg, s, a).inserted == s.inserted
    ensures Next(cfg, s, a).keyCollisions == s.keyCollisions && Next(cfg, s, a).processed == s.processed
    ensures Next(cfg, s, a).adders == s.adders
  {
  }

  lemma AddersKeepCounters<R>(cfg: Config<R>, s: State<R>, records: seq<R>)
    requires CountersAgree(cfg, s)
    ensures CountersAgree(cfg, s.(adders := s.adders + [Adder(records, 0)]))
  {
    TotalAppend(s.adders, Adder(records, 0), Uncounted);
  }

  lemma CountKeepsCounters<R>(cfg: Config<R>, s: State<R>, i: nat)
    requires CountersAgree(cfg, s) && i < |s.adders|
    ensures CountersAgree(cfg, s.(processed := s.processed + s.adders[i].uncounted, adders := s.adders[i := Adder([], 0)]))
  {
    TotalUpdate(s.adders, i, Adder([], 0), Uncounted);
  }

  lemma StepKeepsCounters<R>(cfg: Config<R>, s: State<R>, a: Action<R>)
    requires MasksToShard(cfg.shardOf) && Placed(cfg, s.shards) && |s.lastDrain| == SHARD_COUNT
    requires Enabled(cfg, s, a) && CountersAgree(cfg, s)
    ensures CountersAgree(cfg, Next(cfg, s, a))
  {
    match a {
      case Absorb(i) => AbsorbKeepsCounters(cfg, s, i);
      case DrainShard(i, order) => DrainKeepsCounters(cfg, s, i, order);
      case BeginAdd(records) => AddersKeepCounters(cfg, s, records);
      case Count(i) => CountKeepsCounters(cfg, s, i);
      case _ =>
        OnlyAbsorbAndDrain(cfg, s, a);
        CountersUntouched(cfg, s, a);
    }
  }

  // Drain marks.

  /** How many shards a flush has drained. */
  function ShardsDone(stage: Stage): nat { if stage.Draining? then stage.shard else SHARD_COUNT }

  /** Every input in these rows was accepted when at least `mark` inputs had been. */
  ghost predicate RowsSince<R>(m: map<Bytes, Row<R>>, mark: nat) {
    forall k, p :: k in m && 0 <= p < |m[k].parts| ==> mark <= m[k].parts[p].id
  }

  /** A shard holds only inputs accepted after it was last drained; a flush has drained its shards since it began. */
  ghost predicate MarksHold<R>(s: State<R>) {
    && |s.shards| == SHARD_COUNT == |s.lastDrain|
    && (forall j :: 0 <= j < SHARD_COUNT ==> s.lastDrain[j] <= |s.accepted|)
    && (forall j :: 0 <= j < SHARD_COUNT ==> RowsSince(s.shards[j], s.lastDrain[j]))
    && (forall f :: 0 <= f < |s.flushes| ==>
                      s.flushes[f].mark <= |s.accepted| && s.flushes[f].from <= |s.drained| && ShardsDone(s.flushes[f].stage) <= SHARD_COUNT)
    && (forall f, j :: 0 <= f < |s.flushes| && 0 <= j < ShardsDone(s.flushes[f].stage) ==> s.flushes[f].mark <= s.lastDrain[j])
  }

  lemma AbsorbKeepsMarks<R>(cfg: Config<R>, s: State<R>, i: nat)
    requires MasksToShard(cfg.shardOf) && MarksHold(s) && i < |s.adders| && s.adders[i].todo != []
    ensures MarksHold(AfterAbsorb(cfg, s, i))
  {
    var s' := AfterAbsorb(cfg, s, i);
    var n := cfg.shardOf(cfg.table.key(s.adders[i].todo[0]));
    assert RowsSince(s.shards[n], s.lastDrain[n]);
    assert RowsSince(s'.shards[n], s.lastDrain[n]);
  }

  lemma DrainKeepsMarks<R>(s: State<R>, i: nat, order: seq<Row<R>>)
    requires MarksHold(s) && i < |s.flushes| && s.flushes[i].stage.Draining? && s.flushes[i].stage.shard < SHARD_COUNT
    ensures MarksHold(AfterDrainShard(s, i, order))
  {
  }

  /** Outside draining, a flush is new or keeps what it recorded and how many shards it has drained. */
  lemma FlushesRecorded<R>(cfg: Config<R>, s: State<R>, a: Action<R>)
    requires MasksToShard(cfg.shardOf) && |s.shards| == SHARD_COUNT == |s.lastDrain| && Enabled(cfg, s, a)
    requires !a.Absorb? && !a.DrainShard?
    ensures FlushesFrom(s, Next(cfg, s, a).flushes)
  {
  }

  ghost predicate FlushesFrom<R>(s: State<R>, flushes: seq<Flush<R>>) {
    forall f :: 0 <= f < |flushes| ==>
                  flushes[f] == NewFlush(s)
                  || (f < |s.flushes| && flushes[f].mark == s.flushes[f].mark && flushes[f].from == s.flushes[f].from
                      && ShardsDone(flushes[f].stage) == ShardsDone(s.flushes[f].stage))
  }

  lemma RecordedKeepsMarks<R>(s: State<R>, s': State<R>)
    requires MarksHold(s) && FlushesFrom(s, s'.flushes)
    requires s'.shards == s.shards && s'.lastDrain == s.lastDrain && s'.accepted == s.accepted && s'.drained == s.drained
    ensures MarksHold(s')
  {
  }

  lemma StepKeepsMarks<R>(cfg: Config<R>, s: State<R>, a: Action<R>)
    requires MasksToShard(cfg.shardOf) && MarksHold(s) && Enabled(cfg, s, a)
    ensures MarksHold(Next(cfg, s, a))
  {
    match a {
      case Absorb(i) => AbsorbKeepsMarks(cfg, s, i);
      case DrainShard(i, order) => DrainKeepsMarks(s, i, order);
      case _ =>
        OnlyAbsorbAndDrain(cfg, s, a);
        FlushesRecorded(cfg, s, a);
        RecordedKeepsMarks(s, Next(cfg, s, a));
    }
  }

  // Keys within one flush.

  ghost predicate DistinctKeys<R>(rows: seq<Row<R>>) {
    forall i, j :: 0 <= i < j < |rows| ==> rows[i].key != rows[j].key
  }

  /** One flush never holds a key twice, and while draining only keys of the shards it has visited. */
  ghost predicate FlushKeysApart<R>(cfg: Config<R>, s: State<R>) {
    forall f :: 0 <= f < |s.flushes| ==>
                  && DistinctKeys(s.flushes[f].rows)
                  && (s.flushes[f].stage.Draining? ==>
                        forall i :: 0 <= i < |s.flushes[f].rows| ==> cfg.shardOf(s.flushes[f].rows[i].key) < s.flushes[f].stage.shard)
  }

  lemma TwicePresent<T>(s: seq<T>, i: nat, j: nat)
    requires i < j < |s| && s[i] == s[j]
    ensures multiset(s)[s[i]] >= 2
  {
    assert s == s[..i] + [s[i]] + s[i + 1..j] + [s[j]] + s[j + 1..];
  }

  lemma EnumerationKeys<R>(cfg: Config<R>, shards: seq<map<Bytes, Row<R>>>, n: nat, order: seq<Row<R>>)
    requires Placed(cfg, shards) && n < SHARD_COUNT && multiset(order) == ShardRows(shards[n])
    ensures DistinctKeys(order) && forall i :: 0 <= i < |order| ==> cfg.shardOf(order[i].key) == n
  {
    var m := shards[n];
    forall i | 0 <= i < |order|
      ensures order[i].key in m && m[order[i].key] == order[i] && cfg.shardOf(order[i].key) == n
    {
      assert order[i] in multiset(order);
      assert order[i] in m.Values;
      var k :| k in m && m[k] == order[i];
      assert k in shards[n];
    }
    forall i, j | 0 <= i < j < |order|
      ensures order[i].key != order[j].key
    {
      if order[i].key == order[j].key {
        TwicePresent(order, i, j);
      }
    }
  }

  lemma DrainKeepsFlushKeys<R>(cfg: Config<R>, s: State<R>, i: nat, order: seq<Row<R>>)
    requires MasksToShard(cfg.shardOf) && Placed(cfg, s.shards) && |s.lastDrain| == SHARD_COUNT
    requires Enabled(cfg, s, DrainShard(i, order)) && FlushKeysApart(cfg, s)
    ensures FlushKeysApart(cfg, AfterDrainShard(s, i, order))
  {
    EnumerationKeys(cfg, s.shards, s.flushes[i].stage.shard, order);
  }

  lemma DispatchKeepsFlushKeys<R>(cfg: Config<R>, s: State<R>, i: nat)
    requires i < |s.flushes| && FlushKeysApart(cfg, s)
    ensures FlushKeysApart(cfg, AfterDispatch(cfg, s, i))
  {
  }

  lemma StepKeepsFlushKeys<R>(cfg: Config<R>, s: State<R>, a: Action<R>)
    requires MasksToShard(cfg.shardOf) && Placed(cfg, s.shards) && |s.lastDrain| == SHARD_COUNT
    requires Enabled(cfg, s, a) && FlushKeysApart(cfg, s)
    ensures FlushKeysApart(cfg, Next(cfg, s, a))
  {
    match a {
      case DrainShard(i, order) => DrainKeepsFlushKeys(cfg, s, i, order);
      case Dispatch(i) => DispatchKeepsFlushKeys(cfg, s, i);
      case BeginFlush => assert DistinctKeys(NewFlush(s).rows);
      case CloseStop => assert DistinctKeys(NewFlush(s).rows);
      case Resume(i) => assert AfterResume(s, i).flushes[i].rows == s.flushes[i].rows;
      case _ => assert Next(cfg, s, a).flushes == s.flushes;
    }
  }

  // Batch sizes.

  ghost predicate BatchesFit<R>(cfg: Config<R>, s: State<R>) {
    && |s.channel| <= CHANNEL_CAPACITY
    && (forall b :: 0 <= b < |s.channel| ==> 1 <= |s.channel[b]| <= cfg.maxBatch)
    && (forall o :: 0 <= o < |s.ops| ==> 1 <= |s.ops[o].batch| <= cfg.maxBatch)
    && (forall f :: 0 <= f < |s.flushes| && s.flushes[f].stage == Finished(true) ==> s.flushes[f].rows == [])
  }

  lemma DispatchKeepsBatchesFit<R>(cfg: Config<R>, s: State<R>, i: nat)
    requires cfg.maxBatch >= 1 && i < |s.flushes| && BatchesFit(cfg, s)
    ensures BatchesFit(cfg, AfterDispatch(cfg, s, i))
  {
  }

  lemma FlushesKeepBatchesFit<R>(cfg: Config<R>, s: State<R>, flushes: seq<Flush<R>>)
    requires BatchesFit(cfg, s)
    requires forall f :: 0 <= f < |flushes| && flushes[f].stage == Finished(true) ==> f < |s.flushes| && flushes[f] == s.flushes[f]
    ensures BatchesFit(cfg, s.(flushes := flushes))
  {
  }

  lemma OpKeepsBatchesFit<R>(cfg: Config<R>, s: State<R>, s': State<R>, o: nat, op: Op<R>)
    requires BatchesFit(cfg, s) && o < |s.ops| && op.batch == s.ops[o].batch
    requires s'.ops == s.ops[o := op] && s'.channel == s.channel && s'.flushes == s.flushes
    ensures BatchesFit(cfg, s')
  {
  }

  lemma ReceiveKeepsBatchesFit<R>(cfg: Config<R>, s: State<R>, i: nat)
    requires BatchesFit(cfg, s) && i < |s.writers| && s.channel != []
    ensures BatchesFit(cfg, AfterReceive(s, i))
  {
  }

  lemma SameBatches<R>(cfg: Config<R>, s: State<R>, s': State<R>)
    requires BatchesFit(cfg, s) && s'.channel == s.channel && s'.ops == s.ops && s'.flushes == s.flushes
    ensures BatchesFit(cfg, s')
  {
  }

  lemma DrainKeepsBatchesFit<R>(cfg: Config<R>, s: State<R>, i: nat, order: seq<Row<R>>)
    requires |s.shards| == SHARD_COUNT == |s.lastDrain| && i < |s.flushes| && BatchesFit(cfg, s)
    requires s.flushes[i].stage.Draining? && s.flushes[i].stage.shard < SHARD_COUNT
    ensures BatchesFit(cfg, AfterDrainShard(s, i, order))
  {
    FlushesKeepBatchesFit(cfg, s, AfterDrainShard(s, i, order).flushes);
    SameBatches(cfg, s.(flushes := AfterDrainShard(s, i, order).flushes), AfterDrainShard(s, i, order));
  }

  lemma ResumeKeepsBatchesFit<R>(cfg: Config<R>, s: State<R>, i: nat)
    requires i < |s.flushes| && s.flushes[i].stage.Direct? && s.flushes[i].stage.op < |s.ops| && BatchesFit(cfg, s)
    ensures BatchesFit(cfg, AfterResume(s, i))
  {
    FlushesKeepBatchesFit(cfg, s, AfterResume(s, i).flushes);
  }

  lemma NewFlushKeepsBatchesFit<R>(cfg: Config<R>, s: State<R>, s': State<R>)
    requires BatchesFit(cfg, s) && s'.channel == s.channel && s'.ops == s.ops && s'.flushes == s.flushes + [NewFlush(s)]
    ensures BatchesFit(cfg, s')
  {
  }

  lemma StepKeepsBatchesFit<R>(cfg: Config<R>, s: State<R>, a: Action<R>)
    requires MasksToShard(cfg.shardOf) && cfg.maxBatch >= 1 && |s.shards| == SHARD_COUNT == |s.lastDrain|
    requires Enabled(cfg, s, a) && BatchesFit(cfg, s)
    ensures BatchesFit(cfg, Next(cfg, s, a))
  {
    var s' := Next(cfg, s, a);
    match a {
      case DrainShard(i, order) => DrainKeepsBatchesFit(cfg, s, i, order);
      case Dispatch(i) => DispatchKeepsBatchesFit(cfg, s, i);
      case Resume(i) => ResumeKeepsBatchesFit(cfg, s, i);
      case BeginFlush => NewFlushKeepsBatchesFit(cfg, s, s');
      case CloseStop => NewFlushKeepsBatchesFit(cfg, s, s');
      case Receive(i) => ReceiveKeepsBatchesFit(cfg, s, i);
      case Write(o, e) => OpKeepsBatchesFit(cfg, s, s', o, s'.ops[o]);
      case Report(i) => OpKeepsBatchesFit(cfg, s, s', s.writers[i].op, s'.ops[s.writers[i].op]);
      case _ =>
        OutUntouched(cfg, s, a);
        SameBatches(cfg, s, s');
    }
  }

  // The ledger of writes.

  ghost function CountedRows<R>(o: Op<R>): nat { if o.reported && o.write.verdict.Succeeded? then |o.batch| else 0 }
  ghost function CountedError<R>(o: Op<R>): nat { if o.reported && o.write.verdict.Failed? then 1 else 0 }

  /** Every write is accounted for, every unfinished one is held by its owner, and the counters are the sums
      over the batches that writers reported. */
  ghost predicate LedgerKept<R>(cfg: Config<R>, s: State<R>) {
    && (forall o :: 0 <= o < |s.ops| ==> OpKept(cfg, s, o))
    && (forall w :: 0 <= w < |s.writers| && s.writers[w].Busy? ==>
                      var o := s.writers[w].op; o < |s.ops| && s.ops[o].byWriter && s.ops[o].owner == w && !s.ops[o].reported)
    && (forall f :: 0 <= f < |s.flushes| && s.flushes[f].stage.Direct? ==>
                      var o := s.flushes[f].stage.op; o < |s.ops| && !s.ops[o].byWriter && s.ops[o].owner == f)
    && s.written == Total(s.ops, CountedRows) && s.errors == Total(s.ops, CountedError)
  }

  ghost predicate OpKept<R>(cfg: Config<R>, s: State<R>, o: nat)
    requires o < |s.ops|
  {
    var op := s.ops[o];
    && Retry.Accounted(cfg.attempts, op.write)
    && (op.reported ==> op.byWriter && !op.write.verdict.Running?)
    && (op.byWriter && !op.reported ==> op.owner < |s.writers| && s.writers[op.owner] == Busy(o))
    && (!op.byWriter && op.write.verdict.Running? ==> op.owner < |s.flushes| && s.flushes[op.owner].stage == Direct(o))
  }

  lemma NewOpUncounted<R>(ops: seq<Op<R>>, op: Op<R>)
    requires !op.reported
    ensures Total(ops + [op], CountedRows) == Total(ops, CountedRows)
    ensures Total(ops + [op], CountedError) == Total(ops, CountedError)
  {
    TotalAppend(ops, op, CountedRows);
    TotalAppend(ops, op, CountedError);
  }

  lemma OpRecounted<R>(ops: seq<Op<R>>, o: nat, op: Op<R>)
    requires o < |ops|
    ensures Total(ops[o := op], CountedRows) == Total(ops, CountedRows) - CountedRows(ops[o]) + CountedRows(op)
    ensures Total(ops[o := op], CountedError) == Total(ops, CountedError) - CountedError(ops[o]) + CountedError(op)
  {
    TotalUpdate(ops, o, op, CountedRows);
    TotalUpdate(ops, o, op, CountedError);
  }

  lemma DirectKeepsLedger<R>(cfg: Config<R>, s: State<R>, i: nat, batch: seq<Row<R>>, rest: seq<Row<R>>)
    requires i < |s.flushes| && !s.flushes[i].stage.Direct? && LedgerKept(cfg, s)
    ensures LedgerKept(cfg, s.(ops := s.ops + [Op(batch, false, i, Retry.UNSTARTED, false)],
                               flushes := s.flushes[i := s.flushes[i].(stage := Direct(|s.ops|), rows := rest)]))
  {
    var s' := s.(ops := s.ops + [Op(batch, false, i, Retry.UNSTARTED, false)],
                 flushes := s.flushes[i := s.flushes[i].(stage := Direct(|s.ops|), rows := rest)]);
    NewOpUncounted(s.ops, Op(batch, false, i, Retry.UNSTARTED, false));
    forall o | 0 <= o < |s'.ops|
      ensures OpKept(cfg, s', o)
    {
      assert o < |s.ops| ==> OpKept(cfg, s, o) && s'.ops[o] == s.ops[o];
    }
  }

  lemma DispatchKeepsLedger<R>(cfg: Config<R>, s: State<R>, i: nat)
    requires i < |s.flushes| && !s.flushes[i].stage.Direct? && LedgerKept(cfg, s)
    ensures LedgerKept(cfg, AfterDispatch(cfg, s, i))
  {
    var f, s' := s.flushes[i], AfterDispatch(cfg, s, i);
    if f.rows != [] && |s.channel| >= CHANNEL_CAPACITY {
      DirectKeepsLedger(cfg, s, i, f.rows[..NextBatch(cfg, f)], f.rows[NextBatch(cfg, f)..]);
      SameLedger(cfg, s.(ops := s'.ops, flushes := s'.flushes), s');
    } else {
      FlushesKeepLedger(cfg, s, s'.flushes);
      SameLedger(cfg, s.(flushes := s'.flushes), s');
    }
  }

  lemma ReceiveKeepsLedger<R>(cfg: Config<R>, s: State<R>, i: nat)
    requires i < |s.writers| && s.writers[i] == Idle && s.channel != [] && LedgerKept(cfg, s)
    ensures LedgerKept(cfg, AfterReceive(s, i))
  {
    var s' := AfterReceive(s, i);
    NewOpUncounted(s.ops, Op(s.channel[0], true, i, Retry.UNSTARTED, false));
    forall o | 0 <= o < |s'.ops|
      ensures OpKept(cfg, s', o)
    {
      assert o < |s.ops| ==> OpKept(cfg, s, o) && s'.ops[o] == s.ops[o];
    }
  }

  lemma WriteKeepsLedger<R>(cfg: Config<R>, s: State<R>, o: nat, e: Retry.Event)
    requires o < |s.ops| && Retry.CanStep(cfg.attempts, s.ops[o].write, e) && LedgerKept(cfg, s)
    ensures LedgerKept(cfg, AfterWrite(cfg, s, o, e))
  {
    var s' := AfterWrite(cfg, s, o, e);
    assert OpKept(cfg, s, o);
    Retry.StepAccounted(cfg.attempts, s.ops[o].write, e);
    OpRecounted(s.ops, o, s'.ops[o]);
    forall q | 0 <= q < |s'.ops|
      ensures OpKept(cfg, s', q)
    {
      assert OpKept(cfg, s, q);
    }
  }

  lemma ReportKeepsLedger<R>(cfg: Config<R>, s: State<R>, i: nat)
    requires i < |s.writers| && s.writers[i].Busy? && s.writers[i].op < |s.ops|
    requires !s.ops[s.writers[i].op].write.verdict.Running? && LedgerKept(cfg, s)
    ensures LedgerKept(cfg, AfterReport(s, i))
  {
    var o, s' := s.writers[i].op, AfterReport(s, i);
    OpRecounted(s.ops, o, s'.ops[o]);
    forall q | 0 <= q < |s'.ops|
      ensures OpKept(cfg, s', q)
    {
      assert OpKept(cfg, s, q);
    }
  }

  /** Flushes other than those in a direct write, and idle writers, may change freely. */
  lemma FlushesKeepLedger<R>(cfg: Config<R>, s: State<R>, flushes: seq<Flush<R>>)
    requires LedgerKept(cfg, s) && |s.flushes| <= |flushes|
    requires forall f :: 0 <= f < |flushes| && flushes[f].stage.Direct? ==> f < |s.flushes| && flushes[f].stage == s.flushes[f].stage
    requires forall f :: 0 <= f < |s.flushes| && s.flushes[f].stage.Direct? && s.flushes[f].stage != flushes[f].stage ==>
                           !s.ops[s.flushes[f].stage.op].write.verdict.Running?
    ensures LedgerKept(cfg, s.(flushes := flushes))
  {
    var s' := s.(flushes := flushes);
    forall q | 0 <= q < |s.ops|
      ensures OpKept(cfg, s', q)
    {
      assert OpKept(cfg, s, q);
    }
  }

  lemma ExitKeepsLedger<R>(cfg: Config<R>, s: State<R>, i: nat)
    requires LedgerKept(cfg, s) && i < |s.writers| && s.writers[i] == Idle
    ensures LedgerKept(cfg, s.(writers := s.writers[i := Exited]))
  {
    var s' := s.(writers := s.writers[i := Exited]);
    forall q | 0 <= q < |s.ops|
      ensures OpKept(cfg, s', q)
    {
      assert OpKept(cfg, s, q);
    }
  }

  lemma SameLedger<R>(cfg: Config<R>, s: State<R>, s': State<R>)
    requires LedgerKept(cfg, s) && s'.ops == s.ops && s'.writers == s.writers && s'.flushes == s.flushes
    requires s'.written == s.written && s'.errors == s.errors
    ensures LedgerKept(cfg, s')
  {
    forall q | 0 <= q < |s.ops|
      ensures OpKept(cfg, s', q)
    {
      assert OpKept(cfg, s, q);
    }
  }

  lemma StepKeepsLedger<R>(cfg: Config<R>, s: State<R>, a: Action<R>)
    requires MasksToShard(cfg.shardOf) && |s.shards| == SHARD_COUNT == |s.lastDrain|
    requires Enabled(cfg, s, a) && LedgerKept(cfg, s)
    ensures LedgerKept(cfg, Next(cfg, s, a))
  {
    match a {
      case Dispatch(i) => DispatchKeepsLedger(cfg, s, i);
      case Receive(i) => ReceiveKeepsLedger(cfg, s, i);
      case Write(o, e) => WriteKeepsLedger(cfg, s, o, e);
      case Report(i) => ReportKeepsLedger(cfg, s, i);
      case Exit(i) => ExitKeepsLedger(cfg, s, i);
      case DrainShard(i, order) =>
        FlushesKeepLedger(cfg, s, AfterDrainShard(s, i, order).flushes);
        SameLedger(cfg, s.(flushes := AfterDrainShard(s, i, order).flushes), AfterDrainShard(s, i, order));
      case Resume(i) => FlushesKeepLedger(cfg, s, AfterResume(s, i).flushes);
      case BeginFlush => FlushesKeepLedger(cfg, s, s.flushes + [NewFlush(s)]);
      case CloseStop =>
        FlushesKeepLedger(cfg, s, s.flushes + [NewFlush(s)]);
        SameLedger(cfg, s.(flushes := s.flushes + [NewFlush(s)]), AfterCloseStop(s));
      case _ => SameLedger(cfg, s, Next(cfg, s, a));
    }
  }

  // Running Len calls.

  ghost function SizeFrom<R>(shards: seq<map<Bytes, Row<R>>>, n: nat): nat
    requires n <= |shards|
  {
    Total(shards[n..], ShardSize)
  }

  /** What a Len call has summed so far, plus what it has yet to see, differs from the size at its start by
      at most the insertions and drains since. */
  ghost predicate ReadersBounded<R>(s: State<R>) {
    && |s.shards| == SHARD_COUNT
    && forall i :: 0 <= i < |s.readers| ==> ReaderBounded(s, s.readers[i])
  }

  ghost predicate ReaderBounded<R>(s: State<R>, r: Reader)
    requires |s.shards| == SHARD_COUNT
  {
    && r.shard <= SHARD_COUNT && r.inserted <= s.inserted && r.drained <= |s.drained|
    && r.total + SizeFrom(s.shards, r.shard) <= r.size + (s.inserted - r.inserted)
    && r.size <= r.total + SizeFrom(s.shards, r.shard) + (|s.drained| - r.drained)
  }

  lemma SizeFromUpdate<R>(shards: seq<map<Bytes, Row<R>>>, n: nat, i: nat, m: map<Bytes, Row<R>>)
    requires n <= |shards| && i < |shards|
    ensures SizeFrom(shards[i := m], n) == if i < n then SizeFrom(shards, n) else SizeFrom(shards, n) - |shards[i]| + |m|
    ensures n <= i ==> |shards[i]| <= SizeFrom(shards, n)
  {
    if i < n {
      assert shards[i := m][n..] == shards[n..];
    } else {
      assert shards[i := m][n..] == shards[n..][i - n := m];
      TotalUpdate(shards[n..], i - n, m, ShardSize);
    }
  }

  lemma SizeFromNext<R>(shards: seq<map<Bytes, Row<R>>>, n: nat)
    requires n < |shards|
    ensures SizeFrom(shards, n) == |shards[n]| + SizeFrom(shards, n + 1)
  {
    assert shards[n..][1..] == shards[n + 1..];
  }

  lemma AbsorbKeepsReaders<R>(cfg: Config<R>, s: State<R>, i: nat)
    requires MasksToShard(cfg.shardOf) && |s.shards| == SHARD_COUNT && i < |s.adders| && s.adders[i].todo != [] && ReadersBounded(s)
    ensures ReadersBounded(AfterAbsorb(cfg, s, i))
  {
    var s' := AfterAbsorb(cfg, s, i);
    var k := cfg.table.key(s.adders[i].todo[0]);
    var n := cfg.shardOf(k);
    assert s'.shards[n].Keys == s.shards[n].Keys + {k};
    forall j | 0 <= j < |s.readers|
      ensures ReaderBounded(s', s'.readers[j])
    {
      assert ReaderBounded(s, s.readers[j]);
      SizeFromUpdate(s.shards, s.readers[j].shard, n, s'.shards[n]);
    }
  }

  lemma DrainKeepsReaders<R>(cfg: Config<R>, s: State<R>, i: nat, order: seq<Row<R>>)
    requires MasksToShard(cfg.shardOf) && Placed(cfg, s.shards) && |s.lastDrain| == SHARD_COUNT
    requires Enabled(cfg, s, DrainShard(i, order)) && ReadersBounded(s)
    ensures ReadersBounded(AfterDrainShard(s, i, order))
  {
    var s' := AfterDrainShard(s, i, order);
    var n := s.flushes[i].stage.shard;
    PlacedKeyed(cfg, s.shards, n);
    ShardRowsSize(s.shards[n]);
    assert |multiset(order)| == |order|;
    forall j | 0 <= j < |s.readers|
      ensures ReaderBounded(s', s'.readers[j])
    {
      assert ReaderBounded(s, s.readers[j]);
      SizeFromUpdate(s.shards, s.readers[j].shard, n, map[]);
    }
  }

  lemma ReadKeepsReaders<R>(s: State<R>, i: nat)
    requires ReadersBounded(s) && i < |s.readers| && s.readers[i].shard < SHARD_COUNT
    ensures var r := s.readers[i];
            ReadersBounded(s.(readers := s.readers[i := r.(shard := r.shard + 1, total := r.total + |s.shards[r.shard]|)]))
  {
    assert ReaderBounded(s, s.readers[i]);
    SizeFromNext(s.shards, s.readers[i].shard);
  }

  lemma BeginKeepsReaders<R>(s: State<R>)
    requires ReadersBounded(s)
    ensures ReadersBounded(s.(readers := s.readers + [Reader(0, 0, BufferSize(s.shards), s.inserted, |s.drained|)]))
  {
    assert s.shards[0..] == s.shards;
  }

  lemma SameReaders<R>(s: State<R>, s': State<R>)
    requires ReadersBounded(s) && s'.readers == s.readers && s'.shards == s.shards
    requires s'.inserted == s.inserted && s'.drained == s.drained
    ensures ReadersBounded(s')
  {
    forall i | 0 <= i < |s.readers|
      ensures ReaderBounded(s', s.readers[i])
    {
      assert ReaderBounded(s, s.readers[i]);
    }
  }

  lemma ReadersUntouched<R>(cfg: Config<R>, s: State<R>, a: Action<R>)
    requires MasksToShard(cfg.shardOf) && |s.shards| == SHARD_COUNT == |s.lastDrain| && Enabled(cfg, s, a)
    requires !a.Absorb? && !a.DrainShard? && !a.BeginLen? && !a.ReadShard?
    ensures Next(cfg, s, a).readers == s.readers && Next(cfg, s, a).inserted == s.inserted
  {
  }

  lemma StepKeepsReaders<R>(cfg: Config<R>, s: State<R>, a: Action<R>)
    requires MasksToShard(cfg.shardOf) && Placed(cfg, s.shards) && |s.lastDrain| == SHARD_COUNT
    requires Enabled(cfg, s, a) && ReadersBounded(s)
    ensures ReadersBounded(Next(cfg, s, a))
  {
    match a {
      case Absorb(i) => AbsorbKeepsReaders(cfg, s, i);
      case DrainShard(i, order) => DrainKeepsReaders(cfg, s, i, order);
      case ReadShard(i) => ReadKeepsReaders(s, i);
      case BeginLen => BeginKeepsReaders(s);
      case _ =>
        OnlyAbsorbAndDrain(cfg, s, a);
        ReadersUntouched(cfg, s, a);
        SameReaders(s, Next(cfg, s, a));
    }
  }

  // The stop channel.

  /** The stop channel is closed when some call has closed it; Stop calls have overlapped exactly when two of
      them have closed it or are still about to. */
  ghost predicate StopKept<R>(s: State<R>) {
    && (s.stopped <==> s.closes > 0)
    && (s.overlapped <==> s.closes + s.stopping >= 2)
  }

  lemma StepKeepsStop<R>(cfg: Config<R>, s: State<R>, a: Action<R>)
    requires MasksToShard(cfg.shardOf) && |s.shards| == SHARD_COUNT == |s.lastDrain|
    requires Enabled(cfg, s, a) && StopKept(s)
    ensures StopKept(Next(cfg, s, a))
  {
  }
}
