/** Which tables an event of the whole buffer manager changes, and that one Stop flushes all five. */
module PipelineSystemStop {
  import opened Sequences
  import opened FlatBuffer
  import opened Metrics
  import opened ShardedMaps
  import opened Pipeline
  import opened PipelineRows
  import opened PipelineTheorems
  import opened PipelineIntake
  import opened PipelineSystem

  // Which tables an event changes.

  datatype Which = ThePlatform | TheInterface | TheSubinterface | TheAlarm | TheNotification

  /** All tables but one are as they were. */
  ghost predicate OthersStay(y: System, y': System, one: Which) {
    && (one != ThePlatform ==> y'.platform == y.platform) && (one != TheInterface ==> y'.interface == y.interface)
    && (one != TheSubinterface ==> y'.subinterface == y.subinterface)
    && (one != TheAlarm ==> y'.alarm == y.alarm) && (one != TheNotification ==> y'.notification == y.notification)
  }

  /** The counters grow by what the table's own share grows by. */
  ghost predicate Charged<R>(was: Counters, now: Counters, s: State<R>, s': State<R>) {
    && now.keyCollisions - was.keyCollisions == s'.keyCollisions - s.keyCollisions
    && now.processed - was.processed == s'.processed - s.processed
    && now.written - was.written == s'.written - s.written && now.errors - was.errors == s'.errors - s.errors
  }

  lemma TableCharged<R>(cfg: Config<R>, s: State<R>, a: Action<R>, was: Counters)
    requires MasksToShard(cfg.shardOf) && TableStep(cfg, s, a).Some?
    ensures var t := TableStep(cfg, s, a).value;
            Step(cfg, s, a) == Some(t.0) && Charged(was, was.Plus(t.1), s, t.0)
  {
    TableStepShare(cfg, s, a);
  }

  /** An event of one table is a step of that table's machine, charged to the counters, and leaves the other
      four tables alone. */
  lemma OneTableEvent(l: Limits, y: System, e: Event, y': System)
    requires MasksToShard(l.shardOf) && SystemStep(l, y, e) == Some(y')
    ensures e.OnPlatform? ==>
      OthersStay(y, y', ThePlatform) && Step(l.Of(PLATFORM), y.platform, e.p) == Some(y'.platform)
      && Charged(y.stats, y'.stats, y.platform, y'.platform)
    ensures e.OnInterface? ==>
      OthersStay(y, y', TheInterface) && Step(l.Of(INTERFACE), y.interface, e.i) == Some(y'.interface)
      && Charged(y.stats, y'.stats, y.interface, y'.interface)
    ensures e.OnSubinterface? ==>
      OthersStay(y, y', TheSubinterface) && Step(l.Of(SUBINTERFACE), y.subinterface, e.s) == Some(y'.subinterface)
      && Charged(y.stats, y'.stats, y.subinterface, y'.subinterface)
    ensures e.OnAlarm? ==>
      OthersStay(y, y', TheAlarm) && Step(l.Of(REPORT), y.alarm, e.r) == Some(y'.alarm)
      && Charged(y.stats, y'.stats, y.alarm, y'.alarm)
    ensures e.OnNotification? ==>
      OthersStay(y, y', TheNotification) && Step(l.Of(REPORT), y.notification, e.r) == Some(y'.notification)
      && Charged(y.stats, y'.stats, y.notification, y'.notification)
  {
    match e {
      case OnPlatform(a) => TableCharged(l.Of(PLATFORM), y.platform, a, y.stats);
      case OnInterface(a) => TableCharged(l.Of(INTERFACE), y.interface, a, y.stats);
      case OnSubinterface(a) => TableCharged(l.Of(SUBINTERFACE), y.subinterface, a, y.stats);
      case OnAlarm(a) => TableCharged(l.Of(REPORT), y.alarm, a, y.stats);
      case OnNotification(a) => TableCharged(l.Of(REPORT), y.notification, a, y.stats);
      case _ =>
    }
  }

  /** The machines of all five tables take this stop action. */
  ghost predicate AllTake(l: Limits, y: System, y': System, close: bool)
    requires MasksToShard(l.shardOf)
  {
    && Step(l.Of(PLATFORM), y.platform, if close then CloseStop else CheckStop) == Some(y'.platform)
    && Step(l.Of(INTERFACE), y.interface, if close then CloseStop else CheckStop) == Some(y'.interface)
    && Step(l.Of(SUBINTERFACE), y.subinterface, if close then CloseStop else CheckStop) == Some(y'.subinterface)
    && Step(l.Of(REPORT), y.alarm, if close then CloseStop else CheckStop) == Some(y'.alarm)
    && Step(l.Of(REPORT), y.notification, if close then CloseStop else CheckStop) == Some(y'.notification)
  }

  /** The two events of a Stop call are steps of all five tables and count nothing; closing begins one flush in
      each table, of everything that it has accepted. */
  lemma AllTablesEvent(l: Limits, y: System, e: Event, y': System)
    requires MasksToShard(l.shardOf) && SystemStep(l, y, e) == Some(y') && (e.LookAtStop? || e.CloseAndFlush?)
    ensures AllTake(l, y, y', e.CloseAndFlush?) && y'.stats == y.stats
    ensures e.CloseAndFlush? ==>
      && y'.platform.flushes == y.platform.flushes + [NewFlush(y.platform)]
      && y'.interface.flushes == y.interface.flushes + [NewFlush(y.interface)]
      && y'.subinterface.flushes == y.subinterface.flushes + [NewFlush(y.subinterface)]
      && y'.alarm.flushes == y.alarm.flushes + [NewFlush(y.alarm)]
      && y'.notification.flushes == y.notification.flushes + [NewFlush(y.notification)]
  {
  }

  // Runs of the system, table by table.

  /** Each table is led from its state in y to its state in y' by a run of its own machine. */
  ghost predicate TablesLead(l: Limits, y: System, y': System)
    requires MasksToShard(l.shardOf)
  {
    && Leads(l.Of(PLATFORM), y.platform, y'.platform) && Leads(l.Of(INTERFACE), y.interface, y'.interface)
    && Leads(l.Of(SUBINTERFACE), y.subinterface, y'.subinterface)
    && Leads(l.Of(REPORT), y.alarm, y'.alarm) && Leads(l.Of(REPORT), y.notification, y'.notification)
  }

  lemma StaysLed<R(!new)>(cfg: Config<R>, s: State<R>)
    requires MasksToShard(cfg.shardOf)
    ensures Leads(cfg, s, s)
  {
    assert Run(cfg, s, []) == Some(s);
  }

  lemma EventLeads(l: Limits, y: System, v: System, e: Event, y': System)
    requires MasksToShard(l.shardOf) && TablesLead(l, y, v) && SystemStep(l, v, e) == Some(y')
    ensures TablesLead(l, y, y')
  {
    match e {
      case OnPlatform(a) => LeadsStep(l.Of(PLATFORM), y.platform, v.platform, a);
      case OnInterface(a) => LeadsStep(l.Of(INTERFACE), y.interface, v.interface, a);
      case OnSubinterface(a) => LeadsStep(l.Of(SUBINTERFACE), y.subinterface, v.subinterface, a);
      case OnAlarm(a) => LeadsStep(l.Of(REPORT), y.alarm, v.alarm, a);
      case OnNotification(a) => LeadsStep(l.Of(REPORT), y.notification, v.notification, a);
      case LookAtStop => StopLeads(l, y, v, false, y');
      case CloseAndFlush => StopLeads(l, y, v, true, y');
    }
  }

  lemma StopLeads(l: Limits, y: System, v: System, close: bool, y': System)
    requires MasksToShard(l.shardOf) && TablesLead(l, y, v) && StopStep(l, v, close) == Some(y')
    ensures TablesLead(l, y, y')
  {
    LeadsStep(l.Of(PLATFORM), y.platform, v.platform, if close then CloseStop else CheckStop);
    LeadsStep(l.Of(INTERFACE), y.interface, v.interface, if close then CloseStop else CheckStop);
    LeadsStep(l.Of(SUBINTERFACE), y.subinterface, v.subinterface, if close then CloseStop else CheckStop);
    LeadsStep(l.Of(REPORT), y.alarm, v.alarm, if close then CloseStop else CheckStop);
    LeadsStep(l.Of(REPORT), y.notification, v.notification, if close then CloseStop else CheckStop);
  }

  lemma {:induction false} RunLeads(l: Limits, y: System, events: seq<Event>, y': System)
    requires MasksToShard(l.shardOf) && SystemRun(l, y, events) == Some(y')
    ensures TablesLead(l, y, y')
    decreases |events|
  {
    if events == [] {
      StaysLed(l.Of(PLATFORM), y.platform);
      StaysLed(l.Of(INTERFACE), y.interface);
      StaysLed(l.Of(SUBINTERFACE), y.subinterface);
      StaysLed(l.Of(REPORT), y.alarm);
      StaysLed(l.Of(REPORT), y.notification);
    } else {
      var v := SystemRun(l, y, events[..|events| - 1]).value;
      RunLeads(l, y, events[..|events| - 1], v);
      EventLeads(l, y, v, events[|events| - 1], y');
    }
  }

  /** A run of the whole manager is, for each table, a run of that table's machine. */
  lemma SystemLeadsTables(l: Limits, y: System, y': System)
    requires MasksToShard(l.shardOf) && SystemLeads(l, y, y')
    ensures TablesLead(l, y, y')
  {
    var events :| SystemRun(l, y, events) == Some(y');
    RunLeads(l, y, events, y');
  }

  // Stop.

  ghost predicate AtRest(y: System) {
    Terminal(y.platform) && Terminal(y.interface) && Terminal(y.subinterface) && Terminal(y.alarm) && Terminal(y.notification)
  }

  /** Nothing accepted in state s is buffered in state s'. */
  ghost predicate Flushed<R>(s: State<R>, s': State<R>) {
    forall x :: x in s.accepted ==> x !in Parts(PlacesOf(s').buffered)
  }

  /** One Stop call flushes all five tables: whatever comes after it has closed the channel, when everything is
      at rest nothing that any table had accepted before is still buffered. */
  lemma SystemStopFlushes(l: Limits, y: System, closed: System, rest: System)
    requires l.Usable() && ReachableSystem(l, y) && SystemStep(l, y, CloseAndFlush) == Some(closed)
    requires SystemLeads(l, closed, rest) && AtRest(rest)
    ensures Flushed(y.platform, rest.platform) && Flushed(y.interface, rest.interface)
    ensures Flushed(y.subinterface, rest.subinterface)
    ensures Flushed(y.alarm, rest.alarm) && Flushed(y.notification, rest.notification)
  {
    ReachableSystemInv(l, y);
    AllTablesEvent(l, y, CloseAndFlush, closed);
    SystemLeadsTables(l, closed, rest);
    PlatformLaws();
    InterfaceLaws();
    SubinterfaceLaws();
    ReportLaws();
    StopFlushes(l.Of(PLATFORM), y.platform, rest.platform);
    StopFlushes(l.Of(INTERFACE), y.interface, rest.interface);
    StopFlushes(l.Of(SUBINTERFACE), y.subinterface, rest.subinterface);
    StopFlushes(l.Of(REPORT), y.alarm, rest.alarm);
    StopFlushes(l.Of(REPORT), y.notification, rest.notification);
  }
}
