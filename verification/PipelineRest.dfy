/** From every reachable stopped state the pipeline can come to rest: each goroutine that is still under way
    can be led to its end, one after the other. */
module PipelineRest {
  import opened ShardedMaps
  import opened Pipeline
  import opened PipelineRows
  import opened PipelineControl
  import opened PipelineTheorems
  import Retry

  lemma Shape<R(!new)>(cfg: Config<R>, s: State<R>)
    requires Usable(cfg) && Reachable(cfg, s)
    ensures |s.shards| == SHARD_COUNT == |s.lastDrain|
  {
    ReachableMarks(cfg, s);
  }

  /** The states differ in the write of one op at most. */
  ghost predicate OnlyWrite<R>(s: State<R>, s': State<R>, o: nat)
    requires o < |s.ops|
  {
    |s'.ops| == |s.ops| && s' == s.(ops := s.ops[o := s.ops[o].(write := s'.ops[o].write)])
  }

  lemma OnlyWriteAgain<R>(s: State<R>, v: State<R>, s': State<R>, o: nat)
    requires o < |s.ops| && OnlyWrite(s, v, o) && OnlyWrite(v, s', o)
    ensures OnlyWrite(s, s', o)
  {
    assert v.ops[o := v.ops[o].(write := s'.ops[o].write)] == s.ops[o := s.ops[o].(write := s'.ops[o].write)];
  }

  lemma TakeWrite<R(!new)>(cfg: Config<R>, origin: State<R>, s: State<R>, o: nat, e: Retry.Event) returns (s': State<R>)
    requires Usable(cfg) && Onward(cfg, origin, s) && o < |s.ops| && Retry.CanStep(cfg.attempts, s.ops[o].write, e)
    ensures Onward(cfg, origin, s') && OnlyWrite(s, s', o)
    ensures s'.ops[o].write == Retry.Step(cfg.attempts, s.ops[o].write, e)
  {
    Shape(cfg, s);
    s' := Take(cfg, origin, s, Write(o, e));
  }

  /** An attempt in flight can commit, and be seen to. */
  lemma EndAttempt<R(!new)>(cfg: Config<R>, origin: State<R>, s: State<R>, o: nat) returns (s': State<R>)
    requires Usable(cfg) && Onward(cfg, origin, s) && o < |s.ops| && s.ops[o].write.inFlight
    ensures Onward(cfg, origin, s') && OnlyWrite(s, s', o) && !s'.ops[o].write.verdict.Running?
  {
    if s.ops[o].write.committed {
      s' := TakeWrite(cfg, origin, s, o, Retry.Succeed);
    } else {
      var committed := TakeWrite(cfg, origin, s, o, Retry.Commit);
      s' := TakeWrite(cfg, origin, committed, o, Retry.Succeed);
      OnlyWriteAgain(s, committed, s', o);
    }
  }

  /** A running write can end: its attempt in flight, or the next one, commits in time, or no attempt is left. */
  lemma EndWrite<R(!new)>(cfg: Config<R>, origin: State<R>, s: State<R>, o: nat) returns (s': State<R>)
    requires Usable(cfg) && Onward(cfg, origin, s) && o < |s.ops|
    ensures Onward(cfg, origin, s') && OnlyWrite(s, s', o) && !s'.ops[o].write.verdict.Running?
  {
    var w := s.ops[o].write;
    if !w.verdict.Running? {
      s' := s;
      assert s.ops == s.ops[o := s.ops[o].(write := w)];
    } else if w.inFlight {
      s' := EndAttempt(cfg, origin, s, o);
    } else if w.started < cfg.attempts {
      var started := TakeWrite(cfg, origin, s, o, Retry.Start);
      s' := EndAttempt(cfg, origin, started, o);
      OnlyWriteAgain(s, started, s', o);
    } else {
      s' := TakeWrite(cfg, origin, s, o, Retry.GiveUp);
    }
  }

  // Add calls.

  ghost predicate OnlyAdder<R>(s: State<R>, s': State<R>, i: nat)
    requires i < |s.adders|
  {
    && s'.flushes == s.flushes && s'.channel == s.channel && s'.writers == s.writers && s'.ops == s.ops && s'.stopped == s.stopped
    && |s'.adders| == |s.adders| && forall j :: 0 <= j < |s.adders| && j != i ==> s'.adders[j] == s.adders[j]
  }

  lemma {:induction false} FinishAdder<R(!new)>(cfg: Config<R>, origin: State<R>, s: State<R>, i: nat) returns (s': State<R>)
    requires Usable(cfg) && Onward(cfg, origin, s) && i < |s.adders|
    ensures Onward(cfg, origin, s') && OnlyAdder(s, s', i) && s'.adders[i].todo == []
    decreases |s.adders[i].todo|
  {
    Shape(cfg, s);
    if s.adders[i].todo == [] {
      s' := s;
    } else {
      var next := Take(cfg, origin, s, Absorb(i));
      s' := FinishAdder(cfg, origin, next, i);
    }
  }

  lemma {:induction false} FinishAdders<R(!new)>(cfg: Config<R>, origin: State<R>, s: State<R>, n: nat) returns (s': State<R>)
    requires Usable(cfg) && Onward(cfg, origin, s) && s.stopped && n <= |s.adders|
    requires forall i :: 0 <= i < n ==> s.adders[i].todo == []
    ensures Onward(cfg, origin, s') && s'.stopped && forall i :: 0 <= i < |s'.adders| ==> s'.adders[i].todo == []
    decreases |s.adders| - n
  {
    if n == |s.adders| {
      s' := s;
    } else {
      var next := FinishAdder(cfg, origin, s, n);
      s' := FinishAdders(cfg, origin, next, n + 1);
    }
  }

  // Flushes.

  ghost predicate OnlyFlush<R>(s: State<R>, s': State<R>, f: nat)
    requires f < |s.flushes|
  {
    && s'.adders == s.adders && s'.writers == s.writers && s'.stopped == s.stopped && s'.accepted == s.accepted
    && |s'.flushes| == |s.flushes| && forall g :: 0 <= g < |s.flushes| && g != f ==> s'.flushes[g] == s.flushes[g]
  }

  lemma {:induction false} SomeOrder<T>(m: multiset<T>) returns (order: seq<T>)
    ensures multiset(order) == m
    decreases |m|
  {
    if m == multiset{} {
      order := [];
    } else {
      var x :| x in m;
      var rest := SomeOrder(m - multiset{x});
      order := rest + [x];
    }
  }

  lemma DrainedSize<R(!new)>(cfg: Config<R>, s: State<R>, n: nat, order: seq<Row<R>>)
    requires Usable(cfg) && Reachable(cfg, s) && n < |s.shards| == SHARD_COUNT && multiset(order) == ShardRows(s.shards[n])
    ensures |order| == |s.shards[n]|
  {
    ReachableInputs(cfg, s);
    PlacedKeyed(cfg, s.shards, n);
    ShardRowsSize(s.shards[n]);
    assert |multiset(order)| == |order|;
  }

  /** A flush can go on to drain all the remaining shards, gaining exactly their entries. */
  lemma {:induction false} DrainRest<R(!new)>(cfg: Config<R>, origin: State<R>, s: State<R>, f: nat, n: nat) returns (s': State<R>)
    requires Usable(cfg) && Onward(cfg, origin, s) && f < |s.flushes| && s.flushes[f].stage == Draining(n) && n <= SHARD_COUNT
    requires |s.shards| == SHARD_COUNT == |s.lastDrain|
    ensures Onward(cfg, origin, s') && |s'.shards| == SHARD_COUNT == |s'.lastDrain|
    ensures OnlyFlush(s, s', f) && s'.channel == s.channel && s'.ops == s.ops
    ensures s'.flushes[f].stage == Draining(SHARD_COUNT)
    ensures |s'.flushes[f].rows| == |s.flushes[f].rows| + SizeFrom(s.shards, n)
    ensures forall j :: 0 <= j < SHARD_COUNT ==> s'.shards[j] == if j < n then s.shards[j] else map[]
    decreases SHARD_COUNT - n
  {
    if n == SHARD_COUNT {
      s' := s;
      assert s.shards[n..] == [];
    } else {
      var order := SomeOrder(ShardRows(s.shards[n]));
      var next := Take(cfg, origin, s, DrainShard(f, order));
      s' := DrainRest(cfg, origin, next, f, n + 1);
      DrainedSize(cfg, s, n, order);
      SizeFromNext(s.shards, n);
      assert next.shards[n + 1..] == s.shards[n + 1..];
    }
  }

  /** A direct write can end, and its flush goes on or gives up. */
  lemma FinishDirect<R(!new)>(cfg: Config<R>, origin: State<R>, s: State<R>, f: nat) returns (s': State<R>)
    requires Usable(cfg) && Onward(cfg, origin, s) && f < |s.flushes| && s.flushes[f].stage.Direct?
    ensures Onward(cfg, origin, s') && OnlyFlush(s, s', f) && s'.flushes[f].rows == s.flushes[f].rows
    ensures s'.flushes[f].stage == Dispatching || s'.flushes[f].stage == Finished(false)
  {
    Shape(cfg, s);
    ReachableLedger(cfg, s);
    var ended := EndWrite(cfg, origin, s, s.flushes[f].stage.op);
    s' := Take(cfg, origin, ended, Resume(f));
  }

  /** One round of the dispatch loop, to its end: a batch sent or written, or the flush over. */
  lemma FinishRound<R(!new)>(cfg: Config<R>, origin: State<R>, s: State<R>, f: nat) returns (s': State<R>)
    requires Usable(cfg) && Onward(cfg, origin, s) && f < |s.flushes|
    requires s.flushes[f].stage == Dispatching || s.flushes[f].stage == Draining(SHARD_COUNT)
    ensures Onward(cfg, origin, s') && OnlyFlush(s, s', f)
    ensures s'.flushes[f].stage.Finished? || (s'.flushes[f].stage == Dispatching && |s'.flushes[f].rows| < |s.flushes[f].rows|)
  {
    Shape(cfg, s);
    s' := Take(cfg, origin, s, Dispatch(f));
    if s'.flushes[f].stage.Direct? {
      s' := FinishDirect(cfg, origin, s', f);
    }
  }

  lemma {:induction false} FinishDispatch<R(!new)>(cfg: Config<R>, origin: State<R>, s: State<R>, f: nat) returns (s': State<R>)
    requires Usable(cfg) && Onward(cfg, origin, s) && f < |s.flushes|
    requires s.flushes[f].stage == Dispatching || s.flushes[f].stage == Draining(SHARD_COUNT)
    ensures Onward(cfg, origin, s') && OnlyFlush(s, s', f) && s'.flushes[f].stage.Finished?
    decreases |s.flushes[f].rows|
  {
    s' := FinishRound(cfg, origin, s, f);
    if s'.flushes[f].stage == Dispatching {
      s' := FinishDispatch(cfg, origin, s', f);
    }
  }

  lemma FinishFlush<R(!new)>(cfg: Config<R>, origin: State<R>, s: State<R>, f: nat) returns (s': State<R>)
    requires Usable(cfg) && Onward(cfg, origin, s) && f < |s.flushes|
    ensures Onward(cfg, origin, s') && OnlyFlush(s, s', f) && s'.flushes[f].stage.Finished?
  {
    ReachableMarks(cfg, s);
    s' := s;
    if s'.flushes[f].stage.Direct? {
      s' := FinishDirect(cfg, origin, s', f);
    } else if s'.flushes[f].stage.Draining? {
      s' := DrainRest(cfg, origin, s', f, s.flushes[f].stage.shard);
    }
    if !s'.flushes[f].stage.Finished? {
      s' := FinishDispatch(cfg, origin, s', f);
    }
  }

  ghost predicate AddersDone<R>(s: State<R>) { forall i :: 0 <= i < |s.adders| ==> s.adders[i].todo == [] }

  lemma {:induction false} FinishFlushes<R(!new)>(cfg: Config<R>, origin: State<R>, s: State<R>, n: nat) returns (s': State<R>)
    requires Usable(cfg) && Onward(cfg, origin, s) && s.stopped && AddersDone(s) && n <= |s.flushes|
    requires forall f :: 0 <= f < n ==> s.flushes[f].stage.Finished?
    ensures Onward(cfg, origin, s') && s'.stopped && AddersDone(s')
    ensures forall f :: 0 <= f < |s'.flushes| ==> s'.flushes[f].stage.Finished?
    decreases |s.flushes| - n
  {
    if n == |s.flushes| {
      s' := s;
    } else {
      var next := FinishFlush(cfg, origin, s, n);
      s' := FinishFlushes(cfg, origin, next, n + 1);
    }
  }

  // Writers.

  ghost predicate OnlyWriter<R>(s: State<R>, s': State<R>, w: nat)
    requires w < |s.writers|
  {
    && s'.adders == s.adders && s'.flushes == s.flushes && s'.stopped == s.stopped
    && s'.channel == s.channel && s'.shards == s.shards && s'.accepted == s.accepted
    && |s'.writers| == |s.writers| && forall v :: 0 <= v < |s.writers| && v != w ==> s'.writers[v] == s.writers[v]
  }

  lemma FinishWriter<R(!new)>(cfg: Config<R>, origin: State<R>, s: State<R>, w: nat) returns (s': State<R>)
    requires Usable(cfg) && Onward(cfg, origin, s) && s.stopped && w < |s.writers|
    ensures Onward(cfg, origin, s') && OnlyWriter(s, s', w) && s'.writers[w] == Exited
  {
    Shape(cfg, s);
    ReachableLedger(cfg, s);
    s' := s;
    if s'.writers[w].Busy? {
      s' := EndWrite(cfg, origin, s', s.writers[w].op);
      s' := Take(cfg, origin, s', Report(w));
    }
    if s'.writers[w] == Idle {
      s' := Take(cfg, origin, s', Exit(w));
    }
  }

  lemma {:induction false} FinishWriters<R(!new)>(cfg: Config<R>, origin: State<R>, s: State<R>, n: nat) returns (s': State<R>)
    requires Usable(cfg) && Onward(cfg, origin, s) && s.stopped && n <= |s.writers|
    requires forall w :: 0 <= w < n ==> s.writers[w] == Exited
    ensures Onward(cfg, origin, s') && s'.stopped && s'.adders == s.adders && s'.flushes == s.flushes
    ensures s'.channel == s.channel && s'.shards == s.shards && s'.accepted == s.accepted
    ensures forall w :: 0 <= w < |s'.writers| ==> s'.writers[w] == Exited
    decreases |s.writers| - n
  {
    if n == |s.writers| {
      s' := s;
    } else {
      var next := FinishWriter(cfg, origin, s, n);
      s' := FinishWriters(cfg, origin, next, n + 1);
    }
  }

  /** No deadlock in shutdown: from every reachable stopped state some interleaving leads to rest. */
  lemma RestReachable<R(!new)>(cfg: Config<R>, s: State<R>) returns (s': State<R>)
    requires Usable(cfg) && Reachable(cfg, s) && s.stopped
    ensures Onward(cfg, s, s') && Terminal(s')
  {
    HereOnward(cfg, s);
    var added := FinishAdders(cfg, s, s, 0);
    var flushed := FinishFlushes(cfg, s, added, 0);
    s' := FinishWriters(cfg, s, flushed, 0);
  }
}
