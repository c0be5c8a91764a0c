/** What a call is given and what becomes of it, along every run: Add calls absorb all their records, in
    order, and count them; flushes, the final one of Stop included, take out what was buffered before them. */
module PipelineIntake {
  import opened Sequences
  import opened ShardedMaps
  import opened Pipeline
  import opened PipelineRows
  import opened PipelineInputs
  import opened PipelineControl
  import opened PipelineTheorems
  import opened PipelineRest

  /** A run that begins with action a goes on from the state after a. */
  lemma {:induction false} RunHead<R>(cfg: Config<R>, s: State<R>, a: Action<R>, actions: seq<Action<R>>)
    requires MasksToShard(cfg.shardOf) && Run(cfg, s, [a] + actions).Some?
    ensures Step(cfg, s, a).Some? && Run(cfg, s, [a] + actions) == Run(cfg, Step(cfg, s, a).value, actions)
    decreases |actions|
  {
    var all := [a] + actions;
    if actions == [] {
      assert all[..|all| - 1] == [] && all == [a];
    } else {
      assert all[..|all| - 1] == [a] + actions[..|actions| - 1];
      RunHead(cfg, s, a, actions[..|actions| - 1]);
    }
  }

  // What runs keep.

  /** Nothing accepted is forgotten, and flushes keep their numbers and marks. */
  ghost predicate Evolved<R>(s: State<R>, s': State<R>) {
    && s.accepted <= s'.accepted && |s.flushes| <= |s'.flushes|
    && forall f :: 0 <= f < |s.flushes| ==> s'.flushes[f].mark == s.flushes[f].mark
  }

  lemma StepEvolves<R>(cfg: Config<R>, s: State<R>, a: Action<R>)
    requires MasksToShard(cfg.shardOf) && Step(cfg, s, a).Some?
    ensures Evolved(s, Step(cfg, s, a).value)
  {
  }

  lemma {:induction false} RunEvolves<R>(cfg: Config<R>, s: State<R>, actions: seq<Action<R>>)
    requires MasksToShard(cfg.shardOf) && Run(cfg, s, actions).Some?
    ensures Evolved(s, Run(cfg, s, actions).value)
    decreases |actions|
  {
    if actions == [] {
    } else {
      RunEvolves(cfg, s, actions[..|actions| - 1]);
      StepEvolves(cfg, Run(cfg, s, actions[..|actions| - 1]).value, actions[|actions| - 1]);
    }
  }

  // Flushes.

  predicate BeginsFlush<R>(a: Action<R>) { a.BeginFlush? || a.CloseStop? }

  /** After an action that begins a flush, flush number |s.flushes| bears the mark of all accepted inputs. */
  lemma FlushBegun<R>(cfg: Config<R>, s: State<R>, a: Action<R>)
    requires MasksToShard(cfg.shardOf) && BeginsFlush(a) && Step(cfg, s, a).Some?
    ensures var s' := Step(cfg, s, a).value;
            |s'.flushes| == |s.flushes| + 1 && s'.flushes[|s.flushes|].mark == |s.accepted|
  {
  }

  /** However the run goes on, once the flush that began here has passed the last shard, nothing accepted
      before it is buffered. */
  lemma FlushTakesAll<R(!new)>(cfg: Config<R>, s: State<R>, a: Action<R>, later: State<R>, x: Input<R>)
    requires Usable(cfg) && Reachable(cfg, s) && BeginsFlush(a) && Step(cfg, s, a).Some?
    requires Leads(cfg, Step(cfg, s, a).value, later) && x in s.accepted
    ensures |s.flushes| < |later.flushes|
    ensures ShardsDone(later.flushes[|s.flushes|].stage) == SHARD_COUNT ==> x !in Parts(BufferRows(later.shards))
  {
    var s1 := Step(cfg, s, a).value;
    FlushBegun(cfg, s, a);
    StepReachable(cfg, s, a);
    LaterReachable(cfg, s1, later);
    var actions :| Run(cfg, s1, actions) == Some(later);
    RunEvolves(cfg, s1, actions);
    ReachableInputs(cfg, s);
    if ShardsDone(later.flushes[|s.flushes|].stage) == SHARD_COUNT && x in Parts(BufferRows(later.shards)) {
      OldInputNotBuffered(cfg, later, |s.flushes|, x);
    }
  }

  lemma {:induction false} RunReachable<R(!new)>(cfg: Config<R>, s: State<R>, actions: seq<Action<R>>)
    requires MasksToShard(cfg.shardOf) && Reachable(cfg, s) && Run(cfg, s, actions).Some?
    ensures Reachable(cfg, Run(cfg, s, actions).value)
    decreases |actions|
  {
    if actions == [] {
    } else {
      RunReachable(cfg, s, actions[..|actions| - 1]);
      StepReachable(cfg, Run(cfg, s, actions[..|actions| - 1]).value, actions[|actions| - 1]);
    }
  }

  lemma LaterReachable<R(!new)>(cfg: Config<R>, s: State<R>, later: State<R>)
    requires MasksToShard(cfg.shardOf) && Reachable(cfg, s) && Leads(cfg, s, later)
    ensures Reachable(cfg, later)
  {
    var actions :| Run(cfg, s, actions) == Some(later);
    RunReachable(cfg, s, actions);
  }

  /** Stop flushes: whatever comes after a Stop call has closed its channel, when everything is at rest nothing
      accepted before is still buffered. */
  lemma StopFlushes<R(!new)>(cfg: Config<R>, s: State<R>, rest: State<R>)
    requires Usable(cfg) && Reachable(cfg, s) && Step(cfg, s, CloseStop).Some?
    requires Leads(cfg, Step(cfg, s, CloseStop).value, rest) && Terminal(rest)
    ensures forall x :: x in s.accepted ==> x !in Parts(PlacesOf(rest).buffered)
  {
    forall x | x in s.accepted
      ensures x !in Parts(PlacesOf(rest).buffered)
    {
      FlushTakesAll(cfg, s, CloseStop, rest, x);
    }
  }

  /** The same, about the actions of a run. */
  lemma StopFlushesInRun<R(!new)>(cfg: Config<R>, s: State<R>, actions: seq<Action<R>>, rest: State<R>)
    requires Usable(cfg) && Reachable(cfg, s) && Run(cfg, s, [CloseStop] + actions) == Some(rest) && Terminal(rest)
    ensures forall x :: x in s.accepted ==> x !in Parts(PlacesOf(rest).buffered)
  {
    RunHead(cfg, s, CloseStop, actions);
    assert Leads(cfg, Step(cfg, s, CloseStop).value, rest);
    StopFlushes(cfg, s, rest);
  }

  // Add calls.

  /** The first |at| records of an Add call were accepted at these positions, in order, from position m on. */
  ghost predicate TakenAt<R>(accepted: seq<Input<R>>, m: nat, rs: seq<R>, at: seq<nat>) {
    && |at| <= |rs|
    && (forall i :: 0 <= i < |at| ==> m <= at[i] < |accepted| && accepted[at[i]].rec == rs[i])
    && (forall i, j :: 0 <= i < j < |at| ==> at[i] < at[j])
  }

  /** Add call number n has taken |at| of its records, has the others to do, and has counted none yet or, once
      it is through, all of them. */
  ghost predicate AddStands<R>(s: State<R>, n: nat, rs: seq<R>, at: seq<nat>) {
    && n < |s.adders| && |at| <= |rs| && s.adders[n].todo == rs[|at|..]
    && (s.adders[n].uncounted == |at| || (|at| == |rs| && s.adders[n].uncounted == 0))
  }

  /** What one action makes of Add call number n. */
  lemma AdderStep<R>(cfg: Config<R>, s: State<R>, a: Action<R>, n: nat)
    requires MasksToShard(cfg.shardOf) && Step(cfg, s, a).Some? && n < |s.adders|
    ensures n < |Step(cfg, s, a).value.adders|
    ensures Step(cfg, s, a).value.adders[n] ==
            if a == Absorb(n) then Adder(s.adders[n].todo[1..], s.adders[n].uncounted + 1)
            else if a == Count(n) then Adder([], 0)
            else s.adders[n]
    ensures a == Absorb(n) ==> s.adders[n].todo != [] && Step(cfg, s, a).value.accepted == s.accepted + [Input(|s.accepted|, s.adders[n].todo[0])]
    ensures a == Count(n) ==> s.adders[n].todo == []
  {
  }

  lemma TakenStays<R>(accepted: seq<Input<R>>, more: seq<Input<R>>, m: nat, rs: seq<R>, at: seq<nat>)
    requires accepted <= more && TakenAt(accepted, m, rs, at)
    ensures TakenAt(more, m, rs, at)
  {
  }

  lemma TakenOneMore<R>(accepted: seq<Input<R>>, x: Input<R>, m: nat, rs: seq<R>, at: seq<nat>)
    requires TakenAt(accepted, m, rs, at) && |at| < |rs| && rs[|at|] == x.rec && m <= |accepted|
    ensures TakenAt(accepted + [x], m, rs, at + [|accepted|])
  {
  }

  lemma AddStandsByStep<R>(cfg: Config<R>, s: State<R>, a: Action<R>, m: nat, n: nat, rs: seq<R>, at: seq<nat>) returns (at': seq<nat>)
    requires MasksToShard(cfg.shardOf) && Step(cfg, s, a).Some? && m <= |s.accepted|
    requires AddStands(s, n, rs, at) && TakenAt(s.accepted, m, rs, at)
    ensures var s' := Step(cfg, s, a).value; AddStands(s', n, rs, at') && TakenAt(s'.accepted, m, rs, at')
    ensures at <= at'
  {
    AdderStep(cfg, s, a, n);
    if a == Absorb(n) {
      at' := at + [|s.accepted|];
      TakenOneMore(s.accepted, Input(|s.accepted|, s.adders[n].todo[0]), m, rs, at);
    } else {
      at' := at;
      StepEvolves(cfg, s, a);
      TakenStays(s.accepted, Step(cfg, s, a).value.accepted, m, rs, at);
    }
  }

  /** Where an Add call stands, however the run goes on after it began: what it has taken is a prefix of its
      records, accepted since then in their order, and what it has to do is the rest. */
  lemma {:induction false} AddProgress<R>(cfg: Config<R>, s: State<R>, rs: seq<R>, actions: seq<Action<R>>) returns (at: seq<nat>)
    requires MasksToShard(cfg.shardOf) && Step(cfg, s, BeginAdd(rs)).Some? && Run(cfg, Step(cfg, s, BeginAdd(rs)).value, actions).Some?
    ensures var s' := Run(cfg, Step(cfg, s, BeginAdd(rs)).value, actions).value;
            AddStands(s', |s.adders|, rs, at) && TakenAt(s'.accepted, |s.accepted|, rs, at)
    decreases |actions|
  {
    if actions == [] {
      at := [];
    } else {
      var begun, before := Step(cfg, s, BeginAdd(rs)).value, actions[..|actions| - 1];
      at := AddProgress(cfg, s, rs, before);
      RunEvolves(cfg, begun, before);
      at := AddStandsByStep(cfg, Run(cfg, begun, before).value, actions[|actions| - 1], |s.accepted|, |s.adders|, rs, at);
    }
  }

  /** An Add call that is through has absorbed every record it was given, in order. */
  lemma AddTakesAll<R>(cfg: Config<R>, s: State<R>, rs: seq<R>, actions: seq<Action<R>>, s': State<R>) returns (at: seq<nat>)
    requires MasksToShard(cfg.shardOf) && Run(cfg, s, [BeginAdd(rs)] + actions) == Some(s')
    ensures |s.adders| < |s'.adders|
    ensures s'.adders[|s.adders|].todo == [] ==> |at| == |rs| && TakenAt(s'.accepted, |s.accepted|, rs, at)
  {
    RunHead(cfg, s, BeginAdd(rs), actions);
    at := AddProgress(cfg, s, rs, actions);
  }

  /** An Add call counts all its records at once, and only when it is through. */
  lemma CountAddsAll<R>(cfg: Config<R>, s: State<R>, rs: seq<R>, actions: seq<Action<R>>, s': State<R>)
    requires MasksToShard(cfg.shardOf) && Run(cfg, s, [BeginAdd(rs)] + actions) == Some(s')
    requires Step(cfg, s', Count(|s.adders|)).Some? && s'.adders[|s.adders|].uncounted > 0
    ensures s'.adders[|s.adders|].todo == [] && Step(cfg, s', Count(|s.adders|)).value.processed == s'.processed + |rs|
  {
    RunHead(cfg, s, BeginAdd(rs), actions);
    var at := AddProgress(cfg, s, rs, actions);
  }

  // All Add calls together.

  /** All records given to Add calls in a run. */
  ghost function Given<R>(actions: seq<Action<R>>): multiset<R> {
    if actions == [] then multiset{}
    else
      var last := actions[|actions| - 1];
      Given(actions[..|actions| - 1]) + if last.BeginAdd? then multiset(last.records) else multiset{}
  }

  ghost function RecordsOf<R>(accepted: seq<Input<R>>): seq<R> {
    seq(|accepted|, i requires 0 <= i < |accepted| => accepted[i].rec)
  }

  ghost function TodoRecords<R>(a: Adder<R>): multiset<R> { multiset(a.todo) }

  /** What has been accepted, and what Add calls still have to do. */
  ghost function Taken<R>(s: State<R>): multiset<R> { multiset(RecordsOf(s.accepted)) + Gather(s.adders, TodoRecords) }

  lemma SplitTodo<R>(taken: seq<R>, but: multiset<R>, todo: seq<R>)
    requires todo != []
    ensures multiset(taken) + (but + multiset(todo)) == multiset(taken + [todo[0]]) + (but + multiset(todo[1..]))
  {
    assert todo == [todo[0]] + todo[1..];
  }

  lemma RecordsAppend<R>(accepted: seq<Input<R>>, x: Input<R>)
    ensures RecordsOf(accepted + [x]) == RecordsOf(accepted) + [x.rec]
  {
  }

  lemma AbsorbKeepsTaken<R>(cfg: Config<R>, s: State<R>, i: nat)
    requires |s.shards| == SHARD_COUNT && MasksToShard(cfg.shardOf) && i < |s.adders| && s.adders[i].todo != []
    ensures Taken(AfterAbsorb(cfg, s, i)) == Taken(s)
  {
    var a := Adder(s.adders[i].todo[1..], s.adders[i].uncounted + 1);
    GatherUpdate(s.adders, i, a, TodoRecords);
    RecordsAppend(s.accepted, Input(|s.accepted|, s.adders[i].todo[0]));
    SplitTodo(RecordsOf(s.accepted), GatherBut(s.adders, i, TodoRecords), s.adders[i].todo);
    assert AfterAbsorb(cfg, s, i).adders == s.adders[i := a];
    assert TodoRecords(a) == multiset(s.adders[i].todo[1..]);
  }

  lemma BeginKeepsTaken<R>(adders: seq<Adder<R>>, records: seq<R>)
    ensures Gather(adders + [Adder(records, 0)], TodoRecords) == Gather(adders, TodoRecords) + multiset(records)
  {
    GatherAppend(adders, Adder(records, 0), TodoRecords);
  }

  lemma CountKeepsTaken<R>(adders: seq<Adder<R>>, i: nat)
    requires i < |adders| && adders[i].todo == []
    ensures Gather(adders[i := Adder([], 0)], TodoRecords) == Gather(adders, TodoRecords)
  {
    GatherUpdate(adders, i, Adder([], 0), TodoRecords);
  }

  lemma StepTakes<R>(cfg: Config<R>, s: State<R>, a: Action<R>)
    requires MasksToShard(cfg.shardOf) && Step(cfg, s, a).Some?
    ensures Taken(Step(cfg, s, a).value) == Taken(s) + if a.BeginAdd? then multiset(a.records) else multiset{}
  {
    match a {
      case BeginAdd(records) => BeginKeepsTaken(s.adders, records);
      case Absorb(i) => AbsorbKeepsTaken(cfg, s, i);
      case Count(i) => CountKeepsTaken(s.adders, i);
      case DrainShard(i, order) =>
      case _ =>
        OnlyAbsorbAndDrain(cfg, s, a);
        CountersUntouched(cfg, s, a);
    }
  }

  lemma {:induction false} RunTakes<R>(cfg: Config<R>, s: State<R>, actions: seq<Action<R>>)
    requires MasksToShard(cfg.shardOf) && Run(cfg, s, actions).Some?
    ensures Taken(Run(cfg, s, actions).value) == Taken(s) + Given(actions)
    decreases |actions|
  {
    if actions == [] {
    } else {
      var n := |actions| - 1;
      RunTakes(cfg, s, actions[..n]);
      StepTakes(cfg, Run(cfg, s, actions[..n]).value, actions[n]);
    }
  }

  /** In every run of a new manager the records given to Add calls are exactly the accepted ones and those that
      Add calls still have to do; when all calls are through, exactly the accepted ones. */
  lemma IntakeExact<R>(cfg: Config<R>, s0: State<R>, actions: seq<Action<R>>, s: State<R>)
    requires MasksToShard(cfg.shardOf) && Init(s0) && Run(cfg, s0, actions) == Some(s)
    ensures Given(actions) == multiset(RecordsOf(s.accepted)) + Gather(s.adders, TodoRecords)
    ensures AddersDone(s) ==> Given(actions) == multiset(RecordsOf(s.accepted))
  {
    RunTakes(cfg, s0, actions);
    assert Taken(s0) == multiset{};
    if AddersDone(s) {
      GatherNothing(s.adders, TodoRecords);
    }
  }

  lemma {:induction false} NothingUncounted<R>(adders: seq<Adder<R>>)
    requires forall i :: 0 <= i < |adders| ==> adders[i].uncounted == 0
    ensures Total(adders, Uncounted) == 0
  {
    if adders == [] {
    } else {
      NothingUncounted(adders[1..]);
    }
  }

  /** Once all Add calls are through and have counted, the processed counter is the number of records given. */
  lemma ProcessedIsGiven<R(!new)>(cfg: Config<R>, s0: State<R>, actions: seq<Action<R>>, s: State<R>)
    requires Usable(cfg) && Init(s0) && Run(cfg, s0, actions) == Some(s)
    requires AddersDone(s) && forall i :: 0 <= i < |s.adders| ==> s.adders[i].uncounted == 0
    ensures s.processed == |Given(actions)|
  {
    IntakeExact(cfg, s0, actions, s);
    NothingUncounted(s.adders);
    assert Leads(cfg, s0, s);
    CounterAccounting(cfg, s);
    assert |multiset(RecordsOf(s.accepted))| == |s.accepted|;
  }
}
