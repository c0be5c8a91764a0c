/** The losses that the shutdown bound allows do occur: runs that end at rest with accepted records
    stranded in the channel, up to its whole capacity, or still in the buffer. */
module PipelineLosses {
  import opened Sequences
  import opened Decimal
  import opened Keys
  import opened Metrics
  import opened ShardedMaps
  import opened Pipeline
  import opened PipelineRows
  import opened PipelineTheorems
  import opened PipelineRest

  /** The records have pairwise different keys, none of which is buffered. */
  ghost predicate NewKeys<R>(cfg: Config<R>, shards: seq<map<Bytes, Row<R>>>, rs: seq<R>)
    requires |shards| == SHARD_COUNT && MasksToShard(cfg.shardOf)
  {
    && DistinctRecords(cfg, rs)
    && forall i :: 0 <= i < |rs| ==> cfg.table.key(rs[i]) !in shards[cfg.shardOf(cfg.table.key(rs[i]))]
  }

  ghost predicate DistinctRecords<R>(cfg: Config<R>, rs: seq<R>) {
    forall i, j :: 0 <= i < j < |rs| ==> cfg.table.key(rs[i]) != cfg.table.key(rs[j])
  }

  lemma InsertGrows<R>(cfg: Config<R>, s: State<R>, i: nat)
    requires |s.shards| == SHARD_COUNT && MasksToShard(cfg.shardOf) && i < |s.adders| && s.adders[i].todo != []
    requires NewKeys(cfg, s.shards, s.adders[i].todo)
    ensures BufferSize(AfterAbsorb(cfg, s, i).shards) == BufferSize(s.shards) + 1
  {
    var s' := AfterAbsorb(cfg, s, i);
    var k := cfg.table.key(s.adders[i].todo[0]);
    var n := cfg.shardOf(k);
    TotalUpdate(s.shards, n, s'.shards[n], ShardSize);
    assert s'.shards[n].Keys == s.shards[n].Keys + {k};
  }

  lemma InsertLeavesNew<R>(cfg: Config<R>, s: State<R>, i: nat)
    requires |s.shards| == SHARD_COUNT && MasksToShard(cfg.shardOf) && i < |s.adders| && s.adders[i].todo != []
    requires NewKeys(cfg, s.shards, s.adders[i].todo)
    ensures NewKeys(cfg, AfterAbsorb(cfg, s, i).shards, s.adders[i].todo[1..])
  {
  }

  /** The inputs that these records become when n have been accepted before. */
  ghost function InputsFrom<R>(n: nat, rs: seq<R>): seq<Input<R>> {
    seq(|rs|, i requires 0 <= i < |rs| => Input(n + i, rs[i]))
  }

  lemma InputsCons<R>(before: seq<Input<R>>, rs: seq<R>, next: seq<Input<R>>)
    requires rs != [] && next == before + [Input(|before|, rs[0])]
    ensures next + InputsFrom(|next|, rs[1..]) == before + InputsFrom(|before|, rs)
  {
  }

  lemma InsertOne<R(!new)>(cfg: Config<R>, origin: State<R>, s: State<R>, i: nat) returns (s': State<R>)
    requires Usable(cfg) && Onward(cfg, origin, s) && i < |s.adders| && |s.shards| == SHARD_COUNT == |s.lastDrain|
    requires s.adders[i].todo != [] && NewKeys(cfg, s.shards, s.adders[i].todo)
    ensures Onward(cfg, origin, s') && |s'.shards| == SHARD_COUNT == |s'.lastDrain| && OnlyAdder(s, s', i)
    ensures s'.adders[i].todo == s.adders[i].todo[1..] && NewKeys(cfg, s'.shards, s'.adders[i].todo)
    ensures BufferSize(s'.shards) == BufferSize(s.shards) + 1
    ensures s'.accepted == s.accepted + [Input(|s.accepted|, s.adders[i].todo[0])]
  {
    s' := Take(cfg, origin, s, Absorb(i));
    InsertGrows(cfg, s, i);
    InsertLeavesNew(cfg, s, i);
  }

  /** An Add call whose records all have new keys adds one entry for each. */
  lemma {:induction false} InsertRest<R(!new)>(cfg: Config<R>, origin: State<R>, s: State<R>, i: nat) returns (s': State<R>)
    requires Usable(cfg) && Onward(cfg, origin, s) && i < |s.adders| && |s.shards| == SHARD_COUNT == |s.lastDrain|
    requires NewKeys(cfg, s.shards, s.adders[i].todo)
    ensures Onward(cfg, origin, s') && |s'.shards| == SHARD_COUNT == |s'.lastDrain|
    ensures OnlyAdder(s, s', i) && s'.adders[i].todo == []
    ensures BufferSize(s'.shards) == BufferSize(s.shards) + |s.adders[i].todo|
    ensures s'.accepted == s.accepted + InputsFrom(|s.accepted|, s.adders[i].todo)
    decreases |s.adders[i].todo|
  {
    if s.adders[i].todo == [] {
      s' := s;
      assert InputsFrom(|s.accepted|, s.adders[i].todo) == [];
    } else {
      var next := InsertOne(cfg, origin, s, i);
      InputsCons(s.accepted, s.adders[i].todo, next.accepted);
      s' := InsertRest(cfg, origin, next, i);
    }
  }

  /** The first Add call, from start to end. */
  lemma AddAlone<R(!new)>(cfg: Config<R>, origin: State<R>, s: State<R>, rs: seq<R>) returns (s': State<R>)
    requires Usable(cfg) && Onward(cfg, origin, s) && |s.shards| == SHARD_COUNT == |s.lastDrain|
    requires s.adders == [] && s.accepted == [] && NewKeys(cfg, s.shards, rs)
    ensures Onward(cfg, origin, s') && |s'.shards| == SHARD_COUNT == |s'.lastDrain|
    ensures s'.accepted == InputsFrom(0, rs) && AddersDone(s') && BufferSize(s'.shards) == BufferSize(s.shards) + |rs|
    ensures s'.flushes == s.flushes && s'.channel == s.channel && s'.writers == s.writers && s'.stopped == s.stopped
  {
    var begun := Take(cfg, origin, s, BeginAdd(rs));
    s' := InsertRest(cfg, origin, begun, 0);
  }

  /** A Stop call up to the point where its flush has drained every shard. */
  lemma StopAndDrain<R(!new)>(cfg: Config<R>, origin: State<R>, s: State<R>) returns (s': State<R>)
    requires Usable(cfg) && Onward(cfg, origin, s) && |s.shards| == SHARD_COUNT == |s.lastDrain|
    requires !s.stopped && s.flushes == []
    ensures Onward(cfg, origin, s') && |s'.shards| == SHARD_COUNT == |s'.lastDrain|
    ensures s'.stopped && s'.accepted == s.accepted && s'.adders == s.adders && s'.channel == s.channel && s'.writers == s.writers
    ensures |s'.flushes| == 1 && s'.flushes[0].stage == Draining(SHARD_COUNT) && |s'.flushes[0].rows| == BufferSize(s.shards)
    ensures forall j :: 0 <= j < SHARD_COUNT ==> s'.shards[j] == map[]
  {
    var s1 := Take(cfg, origin, s, CheckStop);
    var s2 := Take(cfg, origin, s1, CloseStop);
    s' := DrainRest(cfg, origin, s2, 0, 0);
    assert s.shards[0..] == s.shards;
  }

  lemma RoomAfterOne(rows: nat, used: nat, maxBatch: nat)
    requires rows > 0 && rows <= (CHANNEL_CAPACITY - used) * maxBatch && used <= CHANNEL_CAPACITY
    ensures used < CHANNEL_CAPACITY && rows - Min(maxBatch, rows) <= (CHANNEL_CAPACITY - (used + 1)) * maxBatch
  {
    assert (CHANNEL_CAPACITY - used) * maxBatch == (CHANNEL_CAPACITY - (used + 1)) * maxBatch + maxBatch;
  }

  /** One batch sent. */
  lemma SendOne<R(!new)>(cfg: Config<R>, origin: State<R>, s: State<R>, f: nat) returns (s': State<R>)
    requires Usable(cfg) && Onward(cfg, origin, s) && |s.shards| == SHARD_COUNT == |s.lastDrain|
    requires f < |s.flushes| && (s.flushes[f].stage == Draining(SHARD_COUNT) || s.flushes[f].stage == Dispatching)
    requires s.flushes[f].rows != [] && |s.channel| < CHANNEL_CAPACITY
    ensures Onward(cfg, origin, s') && |s'.shards| == SHARD_COUNT == |s'.lastDrain|
    ensures OnlyFlush(s, s', f) && s'.shards == s.shards && s'.flushes[f].stage == Dispatching && |s'.channel| == |s.channel| + 1
    ensures |s'.flushes[f].rows| == |s.flushes[f].rows| - Min(cfg.maxBatch, |s.flushes[f].rows|)
    ensures |Gather(s'.channel, BatchRows)| == |Gather(s.channel, BatchRows)| + Min(cfg.maxBatch, |s.flushes[f].rows|)
  {
    s' := Take(cfg, origin, s, Dispatch(f));
    GatherAppend(s.channel, s.flushes[f].rows[..NextBatch(cfg, s.flushes[f])], BatchRows);
  }

  /** A flush whose rows fit in the channel can send them all and end without error. */
  lemma {:induction false} SendRest<R(!new)>(cfg: Config<R>, origin: State<R>, s: State<R>, f: nat) returns (s': State<R>)
    requires Usable(cfg) && Onward(cfg, origin, s) && |s.shards| == SHARD_COUNT == |s.lastDrain|
    requires f < |s.flushes| && (s.flushes[f].stage == Draining(SHARD_COUNT) || s.flushes[f].stage == Dispatching)
    requires |s.channel| <= CHANNEL_CAPACITY && |s.flushes[f].rows| <= (CHANNEL_CAPACITY - |s.channel|) * cfg.maxBatch
    ensures Onward(cfg, origin, s') && |s'.shards| == SHARD_COUNT == |s'.lastDrain|
    ensures OnlyFlush(s, s', f) && s'.shards == s.shards && s'.flushes[f].stage == Finished(true)
    ensures |Gather(s'.channel, BatchRows)| == |Gather(s.channel, BatchRows)| + |s.flushes[f].rows|
    decreases |s.flushes[f].rows|
  {
    if s.flushes[f].rows == [] {
      s' := Take(cfg, origin, s, Dispatch(f));
    } else {
      RoomAfterOne(|s.flushes[f].rows|, |s.channel|, cfg.maxBatch);
      var next := SendOne(cfg, origin, s, f);
      s' := SendRest(cfg, origin, next, f);
    }
  }

  /** After the drain of Stop, all rows sent and all writers gone. */
  lemma SendAndExit<R(!new)>(cfg: Config<R>, origin: State<R>, s: State<R>) returns (s': State<R>)
    requires Usable(cfg) && Onward(cfg, origin, s) && |s.shards| == SHARD_COUNT == |s.lastDrain| && s.stopped && AddersDone(s)
    requires |s.flushes| == 1 && s.flushes[0].stage == Draining(SHARD_COUNT) && s.channel == []
    requires |s.flushes[0].rows| <= CHANNEL_CAPACITY * cfg.maxBatch
    ensures Onward(cfg, origin, s') && Terminal(s') && s'.accepted == s.accepted && s'.adders == s.adders && s'.shards == s.shards
    ensures |Gather(s'.channel, BatchRows)| == |s.flushes[0].rows|
  {
    var sent := SendRest(cfg, origin, s, 0);
    s' := FinishWriters(cfg, origin, sent, 0);
  }

  /** Records added before Stop can end up in the channel with every writer gone: any number of them, up to
      the whole shutdown bound of CHANNEL_CAPACITY * maxBatch. */
  lemma StrandedReachable<R(!new)>(cfg: Config<R>, s0: State<R>, rs: seq<R>) returns (s: State<R>)
    requires Usable(cfg) && Init(s0) && DistinctRecords(cfg, rs) && |rs| <= CHANNEL_CAPACITY * cfg.maxBatch
    ensures Reachable(cfg, s) && Terminal(s) && s.accepted == InputsFrom(0, rs) && |PlacesOf(s).queued| == |rs|
  {
    InitOnward(cfg, s0);
    EmptyShards(s0.shards);
    var added := AddAlone(cfg, s0, s0, rs);
    var drained := StopAndDrain(cfg, s0, added);
    s := SendAndExit(cfg, s0, drained);
  }

  /** Records added when everything else has come to rest stay in the buffer for ever. */
  lemma LateAddReachable<R(!new)>(cfg: Config<R>, s0: State<R>, rs: seq<R>) returns (s: State<R>)
    requires Usable(cfg) && Init(s0) && DistinctRecords(cfg, rs)
    ensures Reachable(cfg, s) && Terminal(s) && s.accepted == InputsFrom(0, rs) && BufferSize(s.shards) == |rs|
  {
    InitOnward(cfg, s0);
    EmptyShards(s0.shards);
    var drained := StopAndDrain(cfg, s0, s0);
    var rested := SendAndExit(cfg, s0, drained);
    EmptyShards(rested.shards);
    Shape(cfg, rested);
    s := AddAlone(cfg, s0, rested, rs);
  }

  // The bound is attained.

  /** A platform record that only names its component, by a number. */
  function Numbered(n: nat): PlatformRecord { PlatformRecord(0, [], Print(BYTES, n), None, None, None, map[]) }

  function NumberedUpTo(n: nat): seq<PlatformRecord> { seq(n, i requires 0 <= i < n => Numbered(i)) }

  lemma NumberedDistinct(cfg: Config<PlatformRecord>, n: nat)
    requires cfg.table == PLATFORM
    ensures DistinctRecords(cfg, NumberedUpTo(n))
  {
    forall i, j | 0 <= i < j < n
      ensures PLATFORM.key(Numbered(i)) != PLATFORM.key(Numbered(j))
    {
      SameNumber(i, j);
    }
  }

  lemma SameNumber(i: nat, j: nat)
    ensures PLATFORM.key(Numbered(i)) == PLATFORM.key(Numbered(j)) ==> i == j
  {
    var name, name' := Print(BYTES, i), Print(BYTES, j);
    PlatformKeyCollision(0, [], name, 0, [], name');
    PrintInjective(BYTES, i, j);
    if [] + [UNDERSCORE] + name == [] + [UNDERSCORE] + name' {
      assert name == ([] + [UNDERSCORE] + name)[1..] && name' == ([] + [UNDERSCORE] + name')[1..];
    }
  }

  /** The shutdown bound is attained: a run strands exactly CHANNEL_CAPACITY * maxBatch rows. */
  lemma StrandingBoundAttained(cfg: Config<PlatformRecord>, s0: State<PlatformRecord>) returns (s: State<PlatformRecord>)
    requires Usable(cfg) && cfg.table == PLATFORM && Init(s0)
    ensures Reachable(cfg, s) && Terminal(s) && |PlacesOf(s).queued| == 100 * cfg.maxBatch
  {
    var n := CHANNEL_CAPACITY * cfg.maxBatch;
    NumberedDistinct(cfg, n);
    s := StrandedReachable(cfg, s0, NumberedUpTo(n));
  }
}
