/** The whole buffer manager: the machines of the five tables run side by side, over one set of counters and
    one stop channel. */
module PipelineSystem {
  import opened Sequences
  import opened Keys
  import opened FlatBuffer
  import opened Metrics
  import opened ShardedMaps
  import opened Pipeline
  import opened PipelineControl
  import opened PipelineTheorems

  /** What the five tables have in common. */
  datatype Limits = Limits(shardOf: Bytes -> nat, maxBatch: nat, attempts: int) {
    ghost predicate Usable() { maxBatch >= 1 && MasksToShard(shardOf) }
    function Of<R>(table: Table<R>): Config<R> { Config(table, shardOf, maxBatch, attempts) }
  }

  datatype Counters = Counters(keyCollisions: nat, processed: nat, written: nat, errors: nat) {
    function Plus(c: Counters): Counters {
      Counters(keyCollisions + c.keyCollisions, processed + c.processed, written + c.written, errors + c.errors)
    }
  }

  const ZERO := Counters(0, 0, 0, 0)

  datatype System = System(
    platform: State<PlatformRecord>, interface: State<InterfaceRecord>, subinterface: State<SubinterfaceRecord>,
    alarm: State<ReportRecord>, notification: State<ReportRecord>, stats: Counters)

  /** An action of one table, or one of the two steps of a Stop call, which concern all tables. */
  datatype Event =
    | OnPlatform(p: Action<PlatformRecord>)
    | OnInterface(i: Action<InterfaceRecord>)
    | OnSubinterface(s: Action<SubinterfaceRecord>)
    | OnAlarm(r: Action<ReportRecord>)
    | OnNotification(r: Action<ReportRecord>)
    | LookAtStop
    | CloseAndFlush

  ghost predicate InitSystem(y: System) {
    Init(y.platform) && Init(y.interface) && Init(y.subinterface) && Init(y.alarm) && Init(y.notification) && y.stats == ZERO
  }

  predicate OfTable<R>(a: Action<R>) { !a.CheckStop? && !a.CloseStop? }

  /** What an action of a table adds to the shared counters. */
  ghost function Bump<R>(cfg: Config<R>, s: State<R>, a: Action<R>): Counters
    requires |s.shards| == SHARD_COUNT == |s.lastDrain| && MasksToShard(cfg.shardOf) && Enabled(cfg, s, a)
  {
    match a
    case Absorb(i) =>
      var k := cfg.table.key(s.adders[i].todo[0]);
      if k in s.shards[cfg.shardOf(k)] && !cfg.table.overwrite then ZERO.(keyCollisions := 1) else ZERO
    case Count(i) => ZERO.(processed := s.adders[i].uncounted)
    case Report(i) =>
      var op := s.ops[s.writers[i].op];
      if op.write.verdict.Succeeded? then ZERO.(written := |op.batch|) else ZERO.(errors := 1)
    case _ => ZERO
  }

  ghost function TableStep<R>(cfg: Config<R>, s: State<R>, a: Action<R>): Option<(State<R>, Counters)>
    requires MasksToShard(cfg.shardOf)
  {
    if OfTable(a) && Step(cfg, s, a).Some? then Some((Step(cfg, s, a).value, Bump(cfg, s, a))) else None
  }

  /** The same stop step in every table. */
  ghost function StopStep(l: Limits, y: System, close: bool): Option<System>
    requires MasksToShard(l.shardOf)
  {
    var p := Step(l.Of(PLATFORM), y.platform, if close then CloseStop else CheckStop);
    var i := Step(l.Of(INTERFACE), y.interface, if close then CloseStop else CheckStop);
    var s := Step(l.Of(SUBINTERFACE), y.subinterface, if close then CloseStop else CheckStop);
    var a := Step(l.Of(REPORT), y.alarm, if close then CloseStop else CheckStop);
    var n := Step(l.Of(REPORT), y.notification, if close then CloseStop else CheckStop);
    if p.Some? && i.Some? && s.Some? && a.Some? && n.Some?
    then Some(System(p.value, i.value, s.value, a.value, n.value, y.stats)) else None
  }

  ghost function SystemStep(l: Limits, y: System, e: Event): Option<System>
    requires MasksToShard(l.shardOf)
  {
    match e
    case OnPlatform(a) =>
      var t := TableStep(l.Of(PLATFORM), y.platform, a);
      if t.None? then None else Some(y.(platform := t.value.0, stats := y.stats.Plus(t.value.1)))
    case OnInterface(a) =>
      var t := TableStep(l.Of(INTERFACE), y.interface, a);
      if t.None? then None else Some(y.(interface := t.value.0, stats := y.stats.Plus(t.value.1)))
    case OnSubinterface(a) =>
      var t := TableStep(l.Of(SUBINTERFACE), y.subinterface, a);
      if t.None? then None else Some(y.(subinterface := t.value.0, stats := y.stats.Plus(t.value.1)))
    case OnAlarm(a) =>
      var t := TableStep(l.Of(REPORT), y.alarm, a);
      if t.None? then None else Some(y.(alarm := t.value.0, stats := y.stats.Plus(t.value.1)))
    case OnNotification(a) =>
      var t := TableStep(l.Of(REPORT), y.notification, a);
      if t.None? then None else Some(y.(notification := t.value.0, stats := y.stats.Plus(t.value.1)))
    case LookAtStop => StopStep(l, y, false)
    case CloseAndFlush => StopStep(l, y, true)
  }

  ghost function SystemRun(l: Limits, y: System, events: seq<Event>): Option<System>
    requires MasksToShard(l.shardOf)
    decreases |events|
  {
    if events == [] then Some(y)
    else
      match SystemRun(l, y, events[..|events| - 1])
      case None => None
      case Some(v) => SystemStep(l, v, events[|events| - 1])
  }

  ghost predicate SystemLeads(l: Limits, y: System, y': System)
    requires MasksToShard(l.shardOf)
  {
    exists events :: SystemRun(l, y, events) == Some(y')
  }

  ghost predicate ReachableSystem(l: Limits, y: System)
    requires MasksToShard(l.shardOf)
  {
    exists y0 :: InitSystem(y0) && SystemLeads(l, y0, y)
  }

  // Every table of a reachable system is in a reachable state of its own machine.

  ghost predicate TablesReachable(l: Limits, y: System)
    requires MasksToShard(l.shardOf)
  {
    && Reachable(l.Of(PLATFORM), y.platform) && Reachable(l.Of(INTERFACE), y.interface)
    && Reachable(l.Of(SUBINTERFACE), y.subinterface)
    && Reachable(l.Of(REPORT), y.alarm) && Reachable(l.Of(REPORT), y.notification)
  }

  function Share<R>(s: State<R>): Counters { Counters(s.keyCollisions, s.processed, s.written, s.errors) }

  /** The shared counters are the sums of the shares of the tables. */
  ghost predicate StatsAreSums(y: System) {
    y.stats == Share(y.platform).Plus(Share(y.interface)).Plus(Share(y.subinterface)).Plus(Share(y.alarm)).Plus(Share(y.notification))
  }

  /** All tables see the one stop channel alike. */
  ghost predicate StopsAgree(y: System) {
    && y.platform.stopped == y.interface.stopped == y.subinterface.stopped == y.alarm.stopped == y.notification.stopped
    && y.platform.stopping == y.interface.stopping == y.subinterface.stopping == y.alarm.stopping == y.notification.stopping
    && y.platform.closes == y.interface.closes == y.subinterface.closes == y.alarm.closes == y.notification.closes
    && y.platform.overlapped == y.interface.overlapped == y.subinterface.overlapped == y.alarm.overlapped == y.notification.overlapped
  }

  lemma TableStepShare<R>(cfg: Config<R>, s: State<R>, a: Action<R>)
    requires MasksToShard(cfg.shardOf) && TableStep(cfg, s, a).Some?
    ensures Share(TableStep(cfg, s, a).value.0) == Share(s).Plus(TableStep(cfg, s, a).value.1)
  {
  }

  lemma TableStepStop<R>(cfg: Config<R>, s: State<R>, a: Action<R>)
    requires MasksToShard(cfg.shardOf) && TableStep(cfg, s, a).Some?
    ensures var s' := TableStep(cfg, s, a).value.0;
            s'.stopped == s.stopped && s'.stopping == s.stopping && s'.closes == s.closes && s'.overlapped == s.overlapped
  {
  }

  lemma TableStepReachable<R(!new)>(cfg: Config<R>, s: State<R>, a: Action<R>)
    requires MasksToShard(cfg.shardOf) && Reachable(cfg, s) && TableStep(cfg, s, a).Some?
    ensures Reachable(cfg, TableStep(cfg, s, a).value.0)
  {
    StepReachable(cfg, s, a);
  }

  lemma StopKeepsShare<R>(cfg: Config<R>, s: State<R>, close: bool)
    requires MasksToShard(cfg.shardOf) && Step(cfg, s, if close then CloseStop else CheckStop).Some?
    ensures Share(Step(cfg, s, if close then CloseStop else CheckStop).value) == Share(s)
  {
  }

  lemma TableInitReachable<R(!new)>(cfg: Config<R>, s: State<R>)
    requires MasksToShard(cfg.shardOf) && Init(s)
    ensures Reachable(cfg, s)
  {
    InitOnward(cfg, s);
  }

  lemma EventKeepsReachable(l: Limits, y: System, e: Event)
    requires MasksToShard(l.shardOf) && TablesReachable(l, y) && SystemStep(l, y, e).Some?
    ensures TablesReachable(l, SystemStep(l, y, e).value)
  {
    match e {
      case OnPlatform(a) => TableStepReachable(l.Of(PLATFORM), y.platform, a);
      case OnInterface(a) => TableStepReachable(l.Of(INTERFACE), y.interface, a);
      case OnSubinterface(a) => TableStepReachable(l.Of(SUBINTERFACE), y.subinterface, a);
      case OnAlarm(a) => TableStepReachable(l.Of(REPORT), y.alarm, a);
      case OnNotification(a) => TableStepReachable(l.Of(REPORT), y.notification, a);
      case LookAtStop => StopKeepsReachable(l, y, false);
      case CloseAndFlush => StopKeepsReachable(l, y, true);
    }
  }

  lemma StopKeepsReachable(l: Limits, y: System, close: bool)
    requires MasksToShard(l.shardOf) && TablesReachable(l, y) && StopStep(l, y, close).Some?
    ensures TablesReachable(l, StopStep(l, y, close).value)
  {
    StepReachable(l.Of(PLATFORM), y.platform, if close then CloseStop else CheckStop);
    StepReachable(l.Of(INTERFACE), y.interface, if close then CloseStop else CheckStop);
    StepReachable(l.Of(SUBINTERFACE), y.subinterface, if close then CloseStop else CheckStop);
    StepReachable(l.Of(REPORT), y.alarm, if close then CloseStop else CheckStop);
    StepReachable(l.Of(REPORT), y.notification, if close then CloseStop else CheckStop);
  }

  /** Adding to one of five summands adds to the sum. */
  lemma PlusInside(a: Counters, b: Counters, c: Counters, d: Counters, e: Counters, x: Counters)
    ensures a.Plus(x).Plus(b).Plus(c).Plus(d).Plus(e) == a.Plus(b).Plus(c).Plus(d).Plus(e).Plus(x)
    ensures a.Plus(b.Plus(x)).Plus(c).Plus(d).Plus(e) == a.Plus(b).Plus(c).Plus(d).Plus(e).Plus(x)
    ensures a.Plus(b).Plus(c.Plus(x)).Plus(d).Plus(e) == a.Plus(b).Plus(c).Plus(d).Plus(e).Plus(x)
    ensures a.Plus(b).Plus(c).Plus(d.Plus(x)).Plus(e) == a.Plus(b).Plus(c).Plus(d).Plus(e).Plus(x)
    ensures a.Plus(b).Plus(c).Plus(d).Plus(e.Plus(x)) == a.Plus(b).Plus(c).Plus(d).Plus(e).Plus(x)
  {
  }

  lemma EventKeepsStats(l: Limits, y: System, e: Event)
    requires MasksToShard(l.shardOf) && StatsAreSums(y) && SystemStep(l, y, e).Some?
    ensures StatsAreSums(SystemStep(l, y, e).value)
  {
    match e {
      case OnPlatform(a) => PlatformKeepsStats(l, y, a);
      case OnInterface(a) => InterfaceKeepsStats(l, y, a);
      case OnSubinterface(a) => SubinterfaceKeepsStats(l, y, a);
      case OnAlarm(a) => AlarmKeepsStats(l, y, a);
      case OnNotification(a) => NotificationKeepsStats(l, y, a);
      case LookAtStop => StopKeepsStats(l, y, false);
      case CloseAndFlush => StopKeepsStats(l, y, true);
    }
  }

  lemma PlatformKeepsStats(l: Limits, y: System, a: Action<PlatformRecord>)
    requires MasksToShard(l.shardOf) && StatsAreSums(y) && SystemStep(l, y, OnPlatform(a)).Some?
    ensures StatsAreSums(SystemStep(l, y, OnPlatform(a)).value)
  {
    TableStepShare(l.Of(PLATFORM), y.platform, a);
    PlusInside(Share(y.platform), Share(y.interface), Share(y.subinterface), Share(y.alarm), Share(y.notification),
               TableStep(l.Of(PLATFORM), y.platform, a).value.1);
  }

  lemma InterfaceKeepsStats(l: Limits, y: System, a: Action<InterfaceRecord>)
    requires MasksToShard(l.shardOf) && StatsAreSums(y) && SystemStep(l, y, OnInterface(a)).Some?
    ensures StatsAreSums(SystemStep(l, y, OnInterface(a)).value)
  {
    TableStepShare(l.Of(INTERFACE), y.interface, a);
    PlusInside(Share(y.platform), Share(y.interface), Share(y.subinterface), Share(y.alarm), Share(y.notification),
               TableStep(l.Of(INTERFACE), y.interface, a).value.1);
  }

  lemma SubinterfaceKeepsStats(l: Limits, y: System, a: Action<SubinterfaceRecord>)
    requires MasksToShard(l.shardOf) && StatsAreSums(y) && SystemStep(l, y, OnSubinterface(a)).Some?
    ensures StatsAreSums(SystemStep(l, y, OnSubinterface(a)).value)
  {
    TableStepShare(l.Of(SUBINTERFACE), y.subinterface, a);
    PlusInside(Share(y.platform), Share(y.interface), Share(y.subinterface), Share(y.alarm), Share(y.notification),
               TableStep(l.Of(SUBINTERFACE), y.subinterface, a).value.1);
  }

  lemma AlarmKeepsStats(l: Limits, y: System, a: Action<ReportRecord>)
    requires MasksToShard(l.shardOf) && StatsAreSums(y) && SystemStep(l, y, OnAlarm(a)).Some?
    ensures StatsAreSums(SystemStep(l, y, OnAlarm(a)).value)
  {
    TableStepShare(l.Of(REPORT), y.alarm, a);
    PlusInside(Share(y.platform), Share(y.interface), Share(y.subinterface), Share(y.alarm), Share(y.notification),
               TableStep(l.Of(REPORT), y.alarm, a).value.1);
  }

  lemma NotificationKeepsStats(l: Limits, y: System, a: Action<ReportRecord>)
    requires MasksToShard(l.shardOf) && StatsAreSums(y) && SystemStep(l, y, OnNotification(a)).Some?
    ensures StatsAreSums(SystemStep(l, y, OnNotification(a)).value)
  {
    TableStepShare(l.Of(REPORT), y.notification, a);
    PlusInside(Share(y.platform), Share(y.interface), Share(y.subinterface), Share(y.alarm), Share(y.notification),
               TableStep(l.Of(REPORT), y.notification, a).value.1);
  }

  lemma StopKeepsStats(l: Limits, y: System, close: bool)
    requires MasksToShard(l.shardOf) && StatsAreSums(y) && StopStep(l, y, close).Some?
    ensures StatsAreSums(StopStep(l, y, close).value)
  {
    StopKeepsShare(l.Of(PLATFORM), y.platform, close);
    StopKeepsShare(l.Of(INTERFACE), y.interface, close);
    StopKeepsShare(l.Of(SUBINTERFACE), y.subinterface, close);
    StopKeepsShare(l.Of(REPORT), y.alarm, close);
    StopKeepsShare(l.Of(REPORT), y.notification, close);
  }

  lemma EventKeepsStops(l: Limits, y: System, e: Event)
    requires MasksToShard(l.shardOf) && StopsAgree(y) && SystemStep(l, y, e).Some?
    ensures StopsAgree(SystemStep(l, y, e).value)
  {
    match e {
      case OnPlatform(a) => TableStepStop(l.Of(PLATFORM), y.platform, a);
      case OnInterface(a) => TableStepStop(l.Of(INTERFACE), y.interface, a);
      case OnSubinterface(a) => TableStepStop(l.Of(SUBINTERFACE), y.subinterface, a);
      case OnAlarm(a) => TableStepStop(l.Of(REPORT), y.alarm, a);
      case OnNotification(a) => TableStepStop(l.Of(REPORT), y.notification, a);
      case LookAtStop => StopsStayAgreed(l, y, false);
      case CloseAndFlush => StopsStayAgreed(l, y, true);
    }
  }

  /** What a stop step makes of the stop channel, as one table sees it. */
  lemma StopStepStop<R>(cfg: Config<R>, s: State<R>, close: bool)
    requires MasksToShard(cfg.shardOf) && Step(cfg, s, if close then CloseStop else CheckStop).Some?
    ensures var s' := Step(cfg, s, if close then CloseStop else CheckStop).value;
            && s'.stopped == (s.stopped || close)
            && s'.closes == (if close then s.closes + 1 else s.closes)
            && s'.stopping == (if close then s.stopping - 1 else if s.stopped then s.stopping else s.stopping + 1)
            && s'.overlapped == (s.overlapped || (!close && !s.stopped && s.stopping > 0))
  {
  }

  lemma StopsStayAgreed(l: Limits, y: System, close: bool)
    requires MasksToShard(l.shardOf) && StopsAgree(y) && StopStep(l, y, close).Some?
    ensures StopsAgree(StopStep(l, y, close).value)
  {
    StopStepStop(l.Of(PLATFORM), y.platform, close);
    StopStepStop(l.Of(INTERFACE), y.interface, close);
    StopStepStop(l.Of(SUBINTERFACE), y.subinterface, close);
    StopStepStop(l.Of(REPORT), y.alarm, close);
    StopStepStop(l.Of(REPORT), y.notification, close);
  }

  ghost predicate SystemInv(l: Limits, y: System)
    requires MasksToShard(l.shardOf)
  {
    TablesReachable(l, y) && StatsAreSums(y) && StopsAgree(y)
  }

  lemma InitTablesReachable(l: Limits, y: System)
    requires MasksToShard(l.shardOf) && InitSystem(y)
    ensures TablesReachable(l, y)
  {
    TableInitReachable(l.Of(PLATFORM), y.platform);
    TableInitReachable(l.Of(INTERFACE), y.interface);
    TableInitReachable(l.Of(SUBINTERFACE), y.subinterface);
    TableInitReachable(l.Of(REPORT), y.alarm);
    TableInitReachable(l.Of(REPORT), y.notification);
  }

  lemma InitTable<R>(s: State<R>)
    requires Init(s)
    ensures Share(s) == ZERO && !s.stopped && s.stopping == s.closes == 0 && !s.overlapped
  {
  }

  lemma InitSystemInv(l: Limits, y: System)
    requires MasksToShard(l.shardOf) && InitSystem(y)
    ensures StatsAreSums(y) && StopsAgree(y)
  {
    InitTable(y.platform);
    InitTable(y.interface);
    InitTable(y.subinterface);
    InitTable(y.alarm);
    InitTable(y.notification);
  }

  lemma EventInv(l: Limits, y: System, e: Event, y': System)
    requires MasksToShard(l.shardOf) && SystemInv(l, y) && SystemStep(l, y, e) == Some(y')
    ensures SystemInv(l, y')
  {
    EventKeepsReachable(l, y, e);
    EventKeepsStats(l, y, e);
    EventKeepsStops(l, y, e);
  }

  lemma {:induction false} SystemRunInv(l: Limits, y: System, events: seq<Event>, y': System)
    requires MasksToShard(l.shardOf) && SystemInv(l, y) && SystemRun(l, y, events) == Some(y')
    ensures SystemInv(l, y')
    decreases |events|
  {
    if events == [] {
    } else {
      var v := SystemRun(l, y, events[..|events| - 1]).value;
      SystemRunInv(l, y, events[..|events| - 1], v);
      EventInv(l, v, events[|events| - 1], y');
    }
  }

  lemma SystemInvFrom(l: Limits, y0: System, y: System)
    requires MasksToShard(l.shardOf) && SystemInv(l, y0) && SystemLeads(l, y0, y)
    ensures SystemInv(l, y)
  {
    var events :| SystemRun(l, y0, events) == Some(y);
    SystemRunInv(l, y0, events, y);
  }

  /** In every reachable system each table is in a reachable state of its own machine, so that all results
      about one table hold of it; the shared counters are sums; and all tables see the stop channel alike. */
  lemma ReachableSystemInv(l: Limits, y: System)
    requires MasksToShard(l.shardOf) && ReachableSystem(l, y)
    ensures SystemInv(l, y)
  {
    var y0 :| InitSystem(y0) && SystemLeads(l, y0, y);
    InitTablesReachable(l, y0);
    InitSystemInv(l, y0);
    SystemInvFrom(l, y0, y);
  }

  // The counters.

  ghost function Entries<R>(s: State<R>): nat { BufferSize(s.shards) + |s.drained| }

  ghost function Waiting<R>(s: State<R>): nat { Total(s.adders, Uncounted) }

  ghost function WrittenRowsOf<R>(s: State<R>): nat { Total(s.ops, CountedRows) }

  ghost function FailedBatchesOf<R>(s: State<R>): nat { Total(s.ops, CountedError) }

  /** The accounts of one table, in terms of its share. */
  ghost predicate ShareAccounted<R>(cfg: Config<R>, s: State<R>) {
    && (if cfg.table.overwrite then s.keyCollisions == 0 else |s.accepted| == s.keyCollisions + Entries(s))
    && |s.accepted| == s.processed + Waiting(s)
    && s.written == WrittenRowsOf(s) && s.errors == FailedBatchesOf(s)
    && s.written <= s.processed + Waiting(s)
  }

  lemma TableAccounted<R(!new)>(cfg: Config<R>, s: State<R>)
    requires Usable(cfg) && Reachable(cfg, s)
    ensures ShareAccounted(cfg, s)
  {
    CounterAccounting(cfg, s);
  }

  lemma AllTablesAccounted(l: Limits, y: System)
    requires l.Usable() && TablesReachable(l, y)
    ensures ShareAccounted(l.Of(PLATFORM), y.platform) && ShareAccounted(l.Of(INTERFACE), y.interface)
    ensures ShareAccounted(l.Of(SUBINTERFACE), y.subinterface)
    ensures ShareAccounted(l.Of(REPORT), y.alarm) && ShareAccounted(l.Of(REPORT), y.notification)
  {
    PlatformLaws();
    InterfaceLaws();
    SubinterfaceLaws();
    ReportLaws();
    TableAccounted(l.Of(PLATFORM), y.platform);
    TableAccounted(l.Of(INTERFACE), y.interface);
    TableAccounted(l.Of(SUBINTERFACE), y.subinterface);
    TableAccounted(l.Of(REPORT), y.alarm);
    TableAccounted(l.Of(REPORT), y.notification);
  }

  ghost function AllWaiting(y: System): nat {
    Waiting(y.platform) + Waiting(y.interface) + Waiting(y.subinterface) + Waiting(y.alarm) + Waiting(y.notification)
  }

  /** Counter accounting of the shared counters, in every state of every interleaving of the five tables. */
  lemma SystemCounters(l: Limits, y: System)
    requires l.Usable() && ReachableSystem(l, y)
    ensures |y.platform.accepted| + |y.interface.accepted| + |y.subinterface.accepted|
         == y.stats.keyCollisions + Entries(y.platform) + Entries(y.interface) + Entries(y.subinterface)
    ensures |y.platform.accepted| + |y.interface.accepted| + |y.subinterface.accepted| + |y.alarm.accepted| + |y.notification.accepted|
         == y.stats.processed + AllWaiting(y)
    ensures y.stats.written == WrittenRowsOf(y.platform) + WrittenRowsOf(y.interface) + WrittenRowsOf(y.subinterface)
                               + WrittenRowsOf(y.alarm) + WrittenRowsOf(y.notification)
    ensures y.stats.errors == FailedBatchesOf(y.platform) + FailedBatchesOf(y.interface) + FailedBatchesOf(y.subinterface)
                              + FailedBatchesOf(y.alarm) + FailedBatchesOf(y.notification)
    ensures y.stats.written <= y.stats.processed + AllWaiting(y)
  {
    ReachableSystemInv(l, y);
    AllTablesAccounted(l, y);
  }

  /** The stop channel of the whole manager: closed at most once, when no Stop call is under way, if and only
      if no two calls overlapped. */
  lemma SystemClosedOnce(l: Limits, y: System)
    requires l.Usable() && ReachableSystem(l, y) && y.platform.stopping == 0
    ensures StopsAgree(y) && (y.platform.closes <= 1 <==> !y.platform.overlapped)
  {
    ReachableSystemInv(l, y);
    PlatformLaws();
    ClosedOnce(l.Of(PLATFORM), y.platform);
  }
}
