/** The registry of device connections. Every operation holds one lock, so a run is a sequence of events. */
module Registry {
  import opened Sequences
  import opened Decimal

  /** What is known of one connection; times are in nanoseconds. */
  datatype Entry = Entry(addr: string, connectedAt: int, lastDataTime: int, dataCount: nat, active: bool)

  datatype Snapshot = Snapshot(entries: map<string, Entry>, activeConnCount: int)

  datatype Event = Register(addr: string, stamp: int, connectedAt: int, lastDataTime: int) | Unregister(id: string) | Activity(id: string, now: int)

  /** The id of a connection: its address and the nanosecond at which it was registered. */
  function ConnectionId(addr: string, stamp: int): string { addr + "-" + Print(CHARS, stamp) }

  function Apply(s: Snapshot, e: Event): Snapshot {
    match e
    case Register(addr, stamp, connectedAt, lastDataTime) =>
      Snapshot(s.entries[ConnectionId(addr, stamp) := Entry(addr, connectedAt, lastDataTime, 0, true)], s.activeConnCount + 1)
    case Unregister(id) =>
      if id in s.entries then Snapshot(s.entries - {id}, s.activeConnCount - 1) else s
    case Activity(id, now) =>
      if id in s.entries then
        s.(entries := s.entries[id := s.entries[id].(lastDataTime := now, dataCount := s.entries[id].dataCount + 1)])
      else s
  }

  /** The sum of the data counts of all entries. */
  ghost function DataTotal(entries: map<string, Entry>): nat
    decreases |entries|
  {
    if entries == map[] then 0
    else
      var id :| id in entries;
      entries[id].dataCount + DataTotal(entries - {id})
  }

  lemma {:induction false} DataTotalRemove(entries: map<string, Entry>, id: string)
    requires id in entries
    ensures DataTotal(entries) == entries[id].dataCount + DataTotal(entries - {id})
    decreases |entries|
  {
    var first :| first in entries && DataTotal(entries) == entries[first].dataCount + DataTotal(entries - {first});
    if first != id {
      DataTotalRemove(entries - {first}, id);
      DataTotalRemove(entries - {id}, first);
      assert entries - {first} - {id} == entries - {id} - {first};
    }
  }

  ghost function ActiveIds(entries: map<string, Entry>, now: int, timeout: int): set<string> {
    set id | id in entries && now - entries[id].lastDataTime <= timeout
  }

  class Connection {
    const addr: string
    const connectedAt: int
    var lastDataTime: int
    var dataCount: nat
    var active: bool

    constructor (addr: string, connectedAt: int, lastDataTime: int)
      ensures View() == Entry(addr, connectedAt, lastDataTime, 0, true)
    {
      this.addr := addr;
      this.connectedAt := connectedAt;
      this.lastDataTime := lastDataTime;
      dataCount := 0;
      active := true;
    }

    function View(): Entry
      reads this
    {
      Entry(addr, connectedAt, lastDataTime, dataCount, active)
    }
  }

  class Collector {
    var connections: map<string, Connection>
    var activeConnCount: int
    const dataTimeout: int

    ghost predicate Valid()
      reads this
    {
      forall id, other :: id in connections && other in connections && id != other ==> connections[id] != connections[other]
    }

    ghost function State(): Snapshot
      reads this, connections.Values
    {
      Snapshot(map id | id in connections :: connections[id].View(), activeConnCount)
    }

    constructor (dataTimeout: int)
      ensures Valid() && State() == EMPTY && this.dataTimeout == dataTimeout
    {
      connections := map[];
      activeConnCount := 0;
      this.dataTimeout := dataTimeout;
    }

    /** The clock is read three times: for the id, and for the two times of the entry. */
    method RegisterConnection(addr: string, stamp: int, connectedAt: int, lastDataTime: int) returns (id: string)
      requires Valid()
      modifies this
      ensures Valid() && id == ConnectionId(addr, stamp)
      ensures State() == Apply(old(State()), Register(addr, stamp, connectedAt, lastDataTime))
    {
      id := ConnectionId(addr, stamp);
      var c := new Connection(addr, connectedAt, lastDataTime);
      connections := connections[id := c];
      activeConnCount := activeConnCount + 1;
    }

    method UnregisterConnection(id: string)
      requires Valid()
      modifies this, connections.Values
      ensures Valid() && State() == Apply(old(State()), Unregister(id))
    {
      if id in connections {
        connections[id].active := false;
        connections := connections - {id};
        activeConnCount := activeConnCount - 1;
      }
    }

    method UpdateActivity(id: string, now: int)
      requires Valid()
      modifies connections.Values
      ensures Valid() && State() == Apply(old(State()), Activity(id, now))
    {
      if id in connections {
        var c := connections[id];
        c.lastDataTime := now;
        c.dataCount := c.dataCount + 1;
      }
    }

    /** The snapshot loop, over the connections in any order. */
    method ComputeSnapshot(now: int) returns (total: nat, active: nat, stale: nat, dataCount: nat)
      ensures total == |State().entries| && active + stale == total
      ensures active == |ActiveIds(State().entries, now, dataTimeout)|
      ensures dataCount == DataTotal(State().entries)
    {
      ghost var entries := State().entries;
      assert entries.Keys == connections.Keys;
      total := |connections.Keys|;
      active, stale, dataCount := 0, 0, 0;
      var todo := connections.Keys;
      ghost var left := entries;
      while todo != {}
        invariant todo == left.Keys && todo <= connections.Keys
        invariant forall id :: id in left ==> left[id] == connections[id].View()
        invariant active + stale + |left.Keys| == total
        invariant active + |ActiveIds(left, now, dataTimeout)| == |ActiveIds(entries, now, dataTimeout)|
        invariant dataCount + DataTotal(left) == DataTotal(entries)
        decreases |todo|
      {
        var id :| id in todo;
        var c := connections[id];
        assert left[id] == c.View();
        WithoutOne(left, id, now, dataTimeout);
        dataCount := dataCount + c.dataCount;
        if now - c.lastDataTime <= dataTimeout {
          active := active + 1;
        } else {
          stale := stale + 1;
        }
        todo, left := todo - {id}, left - {id};
      }
      assert left == map[];
    }
  }

  lemma ActiveIdsRemove(entries: map<string, Entry>, id: string, now: int, timeout: int)
    requires id in entries
    ensures |ActiveIds(entries, now, timeout)| == |ActiveIds(entries - {id}, now, timeout)|
            + if now - entries[id].lastDataTime <= timeout then 1 else 0
  {
    var before, after := ActiveIds(entries, now, timeout), ActiveIds(entries - {id}, now, timeout);
    if now - entries[id].lastDataTime <= timeout {
      assert before == after + {id};
    } else {
      assert before == after;
    }
  }

  /** What one entry contributes to the snapshot. */
  lemma WithoutOne(entries: map<string, Entry>, id: string, now: int, timeout: int)
    requires id in entries
    ensures var less := entries - {id};
            && less.Keys == entries.Keys - {id} && |entries.Keys| == |less.Keys| + 1
            && DataTotal(entries) == entries[id].dataCount + DataTotal(less)
            && |ActiveIds(entries, now, timeout)| ==
               |ActiveIds(less, now, timeout)| + if now - entries[id].lastDataTime <= timeout then 1 else 0
  {
    DataTotalRemove(entries, id);
    ActiveIdsRemove(entries, id, now, timeout);
    assert (entries - {id}).Keys == entries.Keys - {id};
  }

  // Whole runs.

  const EMPTY := Snapshot(map[], 0)

  function After(events: seq<Event>): Snapshot {
    if events == [] then EMPTY else Apply(After(events[..|events| - 1]), events[|events| - 1])
  }

  /** The registration finds its id already taken, and overwrites that entry. */
  predicate Collides(s: Snapshot, e: Event) { e.Register? && ConnectionId(e.addr, e.stamp) in s.entries }

  /** How many registrations of the run collided. */
  function Collisions(events: seq<Event>): nat {
    if events == [] then 0
    else
      var before := events[..|events| - 1];
      Collisions(before) + if Collides(After(before), events[|events| - 1]) then 1 else 0
  }

  /** After any run the active count exceeds the number of connections by the number of collisions: an
      overwritten connection is never subtracted again. */
  lemma {:induction false} CountIsSizePlusCollisions(events: seq<Event>)
    ensures After(events).activeConnCount == |After(events).entries| + Collisions(events)
  {
    if events == [] {
    } else {
      var before, e := After(events[..|events| - 1]), events[|events| - 1];
      CountIsSizePlusCollisions(events[..|events| - 1]);
      if e.Unregister? && e.id in before.entries {
        assert before.entries.Keys == (before.entries - {e.id}).Keys + {e.id};
      }
      assert |before.entries| == |before.entries.Keys| && |After(events).entries| == |After(events).entries.Keys|;
      if e.Register? {
        assert After(events).entries.Keys == before.entries.Keys + {ConnectionId(e.addr, e.stamp)};
      } else if e.Activity? {
        assert After(events).entries.Keys == before.entries.Keys;
      }
    }
  }

  /** The active count is the number of connections exactly when no registration of the run collided. */
  lemma CountExactIff(events: seq<Event>)
    ensures After(events).activeConnCount == |After(events).entries| <==> Collisions(events) == 0
  {
    CountIsSizePlusCollisions(events);
  }

  function RegisterAt(addr: string, stamp: int): Event { Register(addr, stamp, stamp, stamp) }

  lemma AfterOneMore(events: seq<Event>, e: Event)
    ensures After(events + [e]) == Apply(After(events), e)
  {
    assert (events + [e])[..|events|] == events;
  }

  lemma RegisterTwice(s: Snapshot, addr: string, stamp: int)
    requires s.entries.Keys == {} || s.entries.Keys == {ConnectionId(addr, stamp)}
    ensures Apply(s, RegisterAt(addr, stamp)).entries.Keys == {ConnectionId(addr, stamp)}
    ensures Apply(s, RegisterAt(addr, stamp)).activeConnCount == s.activeConnCount + 1
  {
  }

  lemma UnregisterTwice(s: Snapshot, id: string)
    requires s.entries.Keys == {id}
    ensures Apply(s, Unregister(id)) == Snapshot(map[], s.activeConnCount - 1)
    ensures Apply(Apply(s, Unregister(id)), Unregister(id)) == Snapshot(map[], s.activeConnCount - 1)
  {
  }

  /** The failing input: two registrations of one address in the same nanosecond count two connections with one
      entry, and after both have been unregistered still one, with none. */
  lemma TwinsCollide(addr: string, stamp: int)
    ensures var s := After([RegisterAt(addr, stamp), RegisterAt(addr, stamp)]);
            s.activeConnCount == 2 && |s.entries| == 1
    ensures After([RegisterAt(addr, stamp), RegisterAt(addr, stamp), Unregister(ConnectionId(addr, stamp)), Unregister(ConnectionId(addr, stamp))])
         == Snapshot(map[], 1)
  {
    var id, r := ConnectionId(addr, stamp), RegisterAt(addr, stamp);
    var u := Unregister(id);
    assert [] + [r] == [r] && [r] + [r] == [r, r] && [r, r] + [u] == [r, r, u] && [r, r, u] + [u] == [r, r, u, u];
    AfterOneMore([], r);
    AfterOneMore([r], r);
    AfterOneMore([r, r], u);
    AfterOneMore([r, r, u], u);
    RegisterTwice(EMPTY, addr, stamp);
    RegisterTwice(After([r]), addr, stamp);
    UnregisterTwice(After([r, r]), id);
    assert |After([r, r]).entries| == |After([r, r]).entries.Keys|;
  }

  /** Ids are unambiguous for times since 1970, whatever the address looks like. */
  lemma ConnectionIdInjective(addr: string, stamp: nat, addr': string, stamp': nat)
    ensures ConnectionId(addr, stamp) == ConnectionId(addr', stamp') <==> addr == addr' && stamp == stamp'
  {
    if ConnectionId(addr, stamp) == ConnectionId(addr', stamp') {
      assert '-' !in CHARS.digits;
      SplitLast(addr, Print(CHARS, stamp), addr', Print(CHARS, stamp'), '-');
      PrintInjective(CHARS, stamp, stamp');
    }
  }

  // What the entries say of the run.

  predicate Registers(e: Event, id: string) { e.Register? && ConnectionId(e.addr, e.stamp) == id }

  /** The times of the activities of one connection, in order. */
  function ActivityTimes(events: seq<Event>, id: string): seq<int> {
    if events == [] then []
    else
      var e := events[|events| - 1];
      ActivityTimes(events[..|events| - 1], id) + if e.Activity? && e.id == id then [e.now] else []
  }

  /** The connection was registered by event r and not unregistered or registered again since. */
  ghost predicate AliveSince(events: seq<Event>, id: string, r: nat) {
    && r < |events| && Registers(events[r], id)
    && forall k :: r < k < |events| ==> !Registers(events[k], id) && events[k] != Unregister(id)
  }

  /** What is known of a connection that event r registered. */
  function EntrySince(events: seq<Event>, id: string, r: nat): Entry
    requires r < |events| && events[r].Register?
  {
    var times := ActivityTimes(events[r + 1..], id);
    Entry(events[r].addr, events[r].connectedAt, if times == [] then events[r].lastDataTime else times[|times| - 1], |times|, true)
  }

  lemma EntrySinceExtends(events: seq<Event>, id: string, r: nat)
    requires r + 1 < |events| && events[r].Register?
    requires !Registers(events[|events| - 1], id) && events[|events| - 1] != Unregister(id)
    ensures var e, was := events[|events| - 1], EntrySince(events[..|events| - 1], id, r);
            EntrySince(events, id, r) == if e.Activity? && e.id == id then was.(lastDataTime := e.now, dataCount := was.dataCount + 1) else was
  {
    assert events[r + 1..][..|events| - r - 2] == events[..|events| - 1][r + 1..];
  }

  /** An entry tells the history of its connection: the last registration of its id, how many activities have
      come since, and the time of the last one. */
  lemma {:induction false} EntriesTellHistory(events: seq<Event>, id: string) returns (r: nat)
    requires id in After(events).entries
    ensures AliveSince(events, id, r) && After(events).entries[id] == EntrySince(events, id, r)
  {
    var n := |events| - 1;
    if Registers(events[n], id) {
      r := n;
      assert events[n + 1..] == [];
    } else {
      r := EntriesTellHistory(events[..n], id);
      EntrySinceExtends(events, id, r);
    }
  }

  /** Conversely, every connection that was registered and not unregistered since has an entry. */
  lemma {:induction false} AliveHasEntry(events: seq<Event>, id: string, r: nat)
    requires AliveSince(events, id, r)
    ensures id in After(events).entries
  {
    if r < |events| - 1 {
      AliveHasEntry(events[..|events| - 1], id, r);
    }
  }

  /** A known connection is active from its activity on until the timeout has passed, and the activity adds one
      to the sum of the data counts; the other entries stay, and an unknown id changes nothing. */
  lemma ActivityKeepsAlive(s: Snapshot, id: string, now: int, later: int, timeout: int)
    ensures var s' := Apply(s, Activity(id, now));
            if id !in s.entries then s' == s
            else
              && (id in ActiveIds(s'.entries, later, timeout) <==> later - now <= timeout)
              && DataTotal(s'.entries) == DataTotal(s.entries) + 1
              && s'.entries - {id} == s.entries - {id} && s'.activeConnCount == s.activeConnCount
  {
    if id in s.entries {
      var s' := Apply(s, Activity(id, now));
      assert s'.entries - {id} == s.entries - {id};
      DataTotalRemove(s.entries, id);
      DataTotalRemove(s'.entries, id);
    }
  }

  /** Registrations at different addresses or different nanoseconds never collide. */
  lemma {:induction false} DistinctRegistrationsNeverCollide(events: seq<Event>)
    requires forall i :: 0 <= i < |events| && events[i].Register? ==> events[i].stamp >= 0
    requires forall i, j :: 0 <= i < j < |events| && events[i].Register? && events[j].Register?
               ==> (events[i].addr, events[i].stamp) != (events[j].addr, events[j].stamp)
    ensures Collisions(events) == 0 && After(events).activeConnCount == |After(events).entries|
  {
    if events == [] {
    } else {
      var before, e := events[..|events| - 1], events[|events| - 1];
      DistinctRegistrationsNeverCollide(before);
      if Collides(After(before), e) {
        var i := EntriesTellHistory(before, ConnectionId(e.addr, e.stamp));
        ConnectionIdInjective(events[i].addr, events[i].stamp, e.addr, e.stamp);
        assert false;
      }
    }
    CountExactIff(events);
  }
}
