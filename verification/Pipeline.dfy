/** The buffering pipeline of one table as a state machine. One action is one critical section or one
    channel or database event, so runs of actions are the interleavings of concurrent Add calls, flushes,
    writers, Len readers and Stop calls. */
module Pipeline {
  import opened Sequences
  import opened Keys
  import opened FlatBuffer
  import opened ShardedMaps
  import Retry

  /** One accepted record; the id is its position in the order of acceptance. */
  datatype Input<R> = Input(id: nat, rec: R)

  /** One buffered entry, or the copy of it that was drained: its value and the inputs it absorbed, in order. */
  datatype Row<R> = Row(key: Bytes, value: R, parts: seq<Input<R>>)

  /** One call of the retry loop over a batch, by writer number `owner` or directly by flush number `owner`. */
  datatype Op<R> = Op(batch: seq<Row<R>>, byWriter: bool, owner: nat, write: Retry.Write, reported: bool)

  datatype Stage = Draining(shard: nat) | Dispatching | Direct(op: nat) | Finished(ok: bool)

  /** One flush: `rows` are the drained rows not yet dispatched. `mark` and `from` record how many inputs
      had been accepted and how many rows drained when it began. */
  datatype Flush<R> = Flush(stage: Stage, rows: seq<Row<R>>, mark: nat, from: nat)

  datatype Writer = Idle | Busy(op: nat) | Exited

  /** One Add call: records still to absorb, and absorbed records not yet counted as processed. */
  datatype Adder<R> = Adder(todo: seq<R>, uncounted: nat)

  /** One Len call, with the buffer size and the history counters when it began. */
  datatype Reader = Reader(shard: nat, total: nat, size: nat, inserted: nat, drained: nat)

  datatype Drained<R> = Drained(flush: nat, row: Row<R>)

  /** One batch that a flush has dispatched, to the channel or to a direct write. */
  datatype Sent<R> = Sent(flush: nat, batch: seq<Row<R>>, direct: bool)

  datatype Config<!R> = Config(table: Table<R>, shardOf: Bytes -> nat, maxBatch: nat, attempts: int)

  const CHANNEL_CAPACITY: nat := 100

  datatype State<R> = State(
    shards: seq<map<Bytes, Row<R>>>,
    adders: seq<Adder<R>>, readers: seq<Reader>, flushes: seq<Flush<R>>,
    channel: seq<seq<Row<R>>>, writers: seq<Writer>, ops: seq<Op<R>>,
    stopped: bool, stopping: nat, closes: nat,
    // What this table adds to the counters that all tables share.
    keyCollisions: nat, processed: nat, written: nat, errors: nat,
    // History, which no action reads: everything accepted, everything drained and dispatched and by which flush,
    // when each shard was last drained, how many entries were inserted, whether Stop calls ever overlapped.
    accepted: seq<Input<R>>, drained: seq<Drained<R>>, dispatched: seq<Sent<R>>, lastDrain: seq<nat>, inserted: nat, hits: nat, overlapped: bool)

  ghost predicate Init<R>(s: State<R>) {
    && s.shards == seq(SHARD_COUNT, _ => map[]) && s.lastDrain == seq(SHARD_COUNT, _ => 0)
    && s.adders == [] && s.readers == [] && s.flushes == [] && s.channel == [] && s.ops == []
    && (forall i :: 0 <= i < |s.writers| ==> s.writers[i] == Idle)
    && !s.stopped && s.stopping == s.closes == 0 && !s.overlapped
    && s.keyCollisions == s.processed == s.written == s.errors == s.inserted == s.hits == 0
    && s.accepted == [] && s.drained == [] && s.dispatched == []
  }

  /** A new buffer manager. */
  ghost function New<R>(writers: nat): (s: State<R>)
    ensures Init(s) && |s.writers| == writers
  {
    State(seq(SHARD_COUNT, _ => map[]), [], [], [], [], seq(writers, _ => Idle), [], false, 0, 0, 0, 0, 0, 0,
          [], [], [], seq(SHARD_COUNT, _ => 0), 0, 0, false)
  }

  datatype Action<R> =
    | BeginAdd(records: seq<R>)
    | Absorb(adder: nat)
    | Count(adder: nat)
    | BeginLen
    | ReadShard(reader: nat)
    | BeginFlush
    | DrainShard(flush: nat, order: seq<Row<R>>)
    | Dispatch(flush: nat)
    | Resume(flush: nat)
    | Receive(writer: nat)
    | Write(op: nat, event: Retry.Event)
    | Report(writer: nat)
    | Exit(writer: nat)
    | CheckStop
    | CloseStop

  ghost function ShardRows<R>(m: map<Bytes, Row<R>>): multiset<Row<R>> { multiset(m.Values) }

  function NextBatch<R>(cfg: Config<R>, f: Flush<R>): nat { Min(cfg.maxBatch, |f.rows|) }

  function DrainedBy<R>(f: nat, rows: seq<Row<R>>): seq<Drained<R>> {
    seq(|rows|, i requires 0 <= i < |rows| => Drained(f, rows[i]))
  }

  ghost predicate Enabled<R>(cfg: Config<R>, s: State<R>, a: Action<R>)
    requires |s.shards| == SHARD_COUNT == |s.lastDrain| && MasksToShard(cfg.shardOf)
  {
    match a
    case BeginAdd(_) => true
    case Absorb(i) => i < |s.adders| && s.adders[i].todo != []
    case Count(i) => i < |s.adders| && s.adders[i].todo == []
    case BeginLen => true
    case ReadShard(i) => i < |s.readers| && s.readers[i].shard < SHARD_COUNT
    case BeginFlush => true
    case DrainShard(i, order) =>
      && i < |s.flushes| && s.flushes[i].stage.Draining? && s.flushes[i].stage.shard < SHARD_COUNT
      // the order in which the map happens to be iterated
      && multiset(order) == ShardRows(s.shards[s.flushes[i].stage.shard])
    case Dispatch(i) => i < |s.flushes| && (s.flushes[i].stage == Dispatching || s.flushes[i].stage == Draining(SHARD_COUNT))
    case Resume(i) =>
      && i < |s.flushes| && s.flushes[i].stage.Direct? && s.flushes[i].stage.op < |s.ops|
      && !s.ops[s.flushes[i].stage.op].write.verdict.Running?
    case Receive(i) => i < |s.writers| && s.writers[i] == Idle && s.channel != []
    case Write(o, e) => o < |s.ops| && Retry.CanStep(cfg.attempts, s.ops[o].write, e)
    case Report(i) =>
      && i < |s.writers| && s.writers[i].Busy? && s.writers[i].op < |s.ops|
      && !s.ops[s.writers[i].op].write.verdict.Running?
    case Exit(i) => i < |s.writers| && s.writers[i] == Idle && s.stopped
    case CheckStop => true
    case CloseStop => s.stopping > 0
  }

  /** The critical section of one record: merge into the entry of its key, or insert a copy. */
  function AfterAbsorb<R>(cfg: Config<R>, s: State<R>, i: nat): State<R>
    requires |s.shards| == SHARD_COUNT && MasksToShard(cfg.shardOf) && i < |s.adders| && s.adders[i].todo != []
  {
    var r := s.adders[i].todo[0];
    var k := cfg.table.key(r);
    var n := cfg.shardOf(k);
    var x := Input(|s.accepted|, r);
    var hit := k in s.shards[n];
    var row := if hit then Row(k, cfg.table.merge(s.shards[n][k].value, r), s.shards[n][k].parts + [x]) else Row(k, r, [x]);
    s.(shards := s.shards[n := s.shards[n][k := row]],
       adders := s.adders[i := Adder(s.adders[i].todo[1..], s.adders[i].uncounted + 1)],
       keyCollisions := if hit && !cfg.table.overwrite then s.keyCollisions + 1 else s.keyCollisions,
       hits := if hit then s.hits + 1 else s.hits,
       inserted := if hit then s.inserted else s.inserted + 1,
       accepted := s.accepted + [x])
  }

  function AfterDrainShard<R>(s: State<R>, i: nat, order: seq<Row<R>>): State<R>
    requires |s.shards| == SHARD_COUNT == |s.lastDrain| && i < |s.flushes|
    requires s.flushes[i].stage.Draining? && s.flushes[i].stage.shard < SHARD_COUNT
  {
    var f := s.flushes[i];
    var n := f.stage.shard;
    s.(shards := s.shards[n := map[]],
       flushes := s.flushes[i := f.(stage := Draining(n + 1), rows := f.rows + order)],
       drained := s.drained + DrainedBy(i, order),
       lastDrain := s.lastDrain[n := |s.accepted|])
  }

  /** One round of the dispatch loop: done, or one batch to the channel, or one direct write when it is full. */
  function AfterDispatch<R>(cfg: Config<R>, s: State<R>, i: nat): State<R>
    requires i < |s.flushes|
  {
    var f := s.flushes[i];
    if f.rows == [] then s.(flushes := s.flushes[i := f.(stage := Finished(true))])
    else
      var batch, rest := f.rows[..NextBatch(cfg, f)], f.rows[NextBatch(cfg, f)..];
      if |s.channel| < CHANNEL_CAPACITY then
        s.(channel := s.channel + [batch], flushes := s.flushes[i := f.(stage := Dispatching, rows := rest)],
           dispatched := s.dispatched + [Sent(i, batch, false)])
      else
        s.(ops := s.ops + [Op(batch, false, i, Retry.UNSTARTED, false)],
           flushes := s.flushes[i := f.(stage := Direct(|s.ops|), rows := rest)],
           dispatched := s.dispatched + [Sent(i, batch, true)])
  }

  function AfterResume<R>(s: State<R>, i: nat): State<R>
    requires i < |s.flushes| && s.flushes[i].stage.Direct? && s.flushes[i].stage.op < |s.ops|
  {
    var f := s.flushes[i];
    var ok := s.ops[f.stage.op].write.verdict.Succeeded?;
    s.(flushes := s.flushes[i := f.(stage := if ok then Dispatching else Finished(false))])
  }

  function AfterReceive<R>(s: State<R>, i: nat): State<R>
    requires i < |s.writers| && s.channel != []
  {
    s.(channel := s.channel[1..], writers := s.writers[i := Busy(|s.ops|)],
       ops := s.ops + [Op(s.channel[0], true, i, Retry.UNSTARTED, false)])
  }

  function AfterWrite<R>(cfg: Config<R>, s: State<R>, o: nat, e: Retry.Event): State<R>
    requires o < |s.ops| && Retry.CanStep(cfg.attempts, s.ops[o].write, e)
  {
    s.(ops := s.ops[o := s.ops[o].(write := Retry.Step(cfg.attempts, s.ops[o].write, e))])
  }

  function AfterReport<R>(s: State<R>, i: nat): State<R>
    requires i < |s.writers| && s.writers[i].Busy? && s.writers[i].op < |s.ops|
  {
    var o := s.writers[i].op;
    var ok := s.ops[o].write.verdict.Succeeded?;
    s.(writers := s.writers[i := Idle], ops := s.ops[o := s.ops[o].(reported := true)],
       written := if ok then s.written + |s.ops[o].batch| else s.written,
       errors := if ok then s.errors else s.errors + 1)
  }

  function NewFlush<R>(s: State<R>): Flush<R> { Flush(Draining(0), [], |s.accepted|, |s.drained|) }

  /** Stop first looks whether the stop channel is closed; if it is, the call returns without effect. */
  function AfterCheckStop<R>(s: State<R>): State<R> {
    if s.stopped then s else s.(stopping := s.stopping + 1, overlapped := s.overlapped || s.stopping > 0)
  }

  /** Then it closes the channel and starts the final flush. */
  function AfterCloseStop<R>(s: State<R>): State<R>
    requires s.stopping > 0
  {
    s.(stopping := s.stopping - 1, closes := s.closes + 1, stopped := true, flushes := s.flushes + [NewFlush(s)])
  }

  ghost function BufferSize<R>(shards: seq<map<Bytes, Row<R>>>): nat { Total(shards, ShardSize) }

  ghost function ShardSize<R>(m: map<Bytes, Row<R>>): nat { |m| }

  ghost function Next<R>(cfg: Config<R>, s: State<R>, a: Action<R>): State<R>
    requires |s.shards| == SHARD_COUNT == |s.lastDrain| && MasksToShard(cfg.shardOf) && Enabled(cfg, s, a)
  {
    match a
    case BeginAdd(records) => s.(adders := s.adders + [Adder(records, 0)])
    case Absorb(i) => AfterAbsorb(cfg, s, i)
    case Count(i) =>
      s.(processed := s.processed + s.adders[i].uncounted, adders := s.adders[i := Adder([], 0)])
    case BeginLen => s.(readers := s.readers + [Reader(0, 0, BufferSize(s.shards), s.inserted, |s.drained|)])
    case ReadShard(i) =>
      var r := s.readers[i];
      s.(readers := s.readers[i := r.(shard := r.shard + 1, total := r.total + |s.shards[r.shard]|)])
    case BeginFlush => s.(flushes := s.flushes + [NewFlush(s)])
    case DrainShard(i, order) => AfterDrainShard(s, i, order)
    case Dispatch(i) => AfterDispatch(cfg, s, i)
    case Resume(i) => AfterResume(s, i)
    case Receive(i) => AfterReceive(s, i)
    case Write(o, e) => AfterWrite(cfg, s, o, e)
    case Report(i) => AfterReport(s, i)
    case Exit(i) => s.(writers := s.writers[i := Exited])
    case CheckStop => AfterCheckStop(s)
    case CloseStop => AfterCloseStop(s)
  }

  /** What the machine needs of its configuration. */
  ghost predicate Usable<R(!new)>(cfg: Config<R>) {
    cfg.maxBatch >= 1 && MasksToShard(cfg.shardOf) && KeyStable(cfg.table)
  }

  /** One step of a run; None when the action is not enabled. */
  ghost function Step<R>(cfg: Config<R>, s: State<R>, a: Action<R>): Option<State<R>>
    requires MasksToShard(cfg.shardOf)
  {
    if |s.shards| == SHARD_COUNT == |s.lastDrain| && Enabled(cfg, s, a) then Some(Next(cfg, s, a)) else None
  }

  /** Where the actions lead, one after the other; None when one of them is not enabled in its turn. */
  ghost function Run<R>(cfg: Config<R>, s: State<R>, actions: seq<Action<R>>): Option<State<R>>
    requires MasksToShard(cfg.shardOf)
    decreases |actions|
  {
    if actions == [] then Some(s)
    else
      match Run(cfg, s, actions[..|actions| - 1])
      case None => None
      case Some(v) => Step(cfg, v, actions[|actions| - 1])
  }

  /** Some interleaving leads from s to s'. */
  ghost predicate Leads<R(!new)>(cfg: Config<R>, s: State<R>, s': State<R>)
    requires MasksToShard(cfg.shardOf)
  {
    exists actions :: Run(cfg, s, actions) == Some(s')
  }

  /** The states that some interleaving reaches. */
  ghost predicate Reachable<R(!new)>(cfg: Config<R>, s: State<R>)
    requires MasksToShard(cfg.shardOf)
  {
    exists s0 :: Init(s0) && Leads(cfg, s0, s)
  }

  /** A reachable state to which some interleaving leads from `origin`. */
  ghost predicate Onward<R(!new)>(cfg: Config<R>, origin: State<R>, s: State<R>)
    requires MasksToShard(cfg.shardOf)
  {
    Reachable(cfg, s) && Leads(cfg, origin, s)
  }

  lemma LeadsStep<R(!new)>(cfg: Config<R>, s: State<R>, v: State<R>, a: Action<R>)
    requires MasksToShard(cfg.shardOf) && Leads(cfg, s, v) && Step(cfg, v, a).Some?
    ensures Leads(cfg, s, Step(cfg, v, a).value)
  {
    var actions :| Run(cfg, s, actions) == Some(v);
    assert (actions + [a])[..|actions + [a]| - 1] == actions;
    assert Run(cfg, s, actions + [a]) == Step(cfg, v, a);
  }

  lemma StepReachable<R(!new)>(cfg: Config<R>, s: State<R>, a: Action<R>)
    requires MasksToShard(cfg.shardOf) && Reachable(cfg, s) && Step(cfg, s, a).Some?
    ensures Reachable(cfg, Step(cfg, s, a).value)
  {
    var s0 :| Init(s0) && Leads(cfg, s0, s);
    LeadsStep(cfg, s0, s, a);
  }

  lemma HereOnward<R(!new)>(cfg: Config<R>, s: State<R>)
    requires MasksToShard(cfg.shardOf) && Reachable(cfg, s)
    ensures Onward(cfg, s, s)
  {
    assert Run(cfg, s, []) == Some(s);
  }

  lemma InitOnward<R(!new)>(cfg: Config<R>, s: State<R>)
    requires MasksToShard(cfg.shardOf) && Init(s)
    ensures Onward(cfg, s, s)
  {
    assert Run(cfg, s, []) == Some(s);
    assert Leads(cfg, s, s);
  }

  /** One more action. */
  lemma Take<R(!new)>(cfg: Config<R>, origin: State<R>, s: State<R>, a: Action<R>) returns (s': State<R>)
    requires MasksToShard(cfg.shardOf) && Onward(cfg, origin, s) && |s.shards| == SHARD_COUNT == |s.lastDrain| && Enabled(cfg, s, a)
    ensures Onward(cfg, origin, s') && s' == Next(cfg, s, a)
  {
    s' := Next(cfg, s, a);
    LeadsStep(cfg, origin, s, a);
    var s0 :| Init(s0) && Leads(cfg, s0, s);
    LeadsStep(cfg, s0, s, a);
  }
}
