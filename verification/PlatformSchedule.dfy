/** Runs over the platform buffer on the heap: Add loops, whole drains, and every schedule of single-record
    Adds and single-shard drains. The structs drained so far are never written again. */
module PlatformSchedule {
  import opened Sequences
  import opened Keys
  import opened FlatBuffer
  import opened Metrics
  import opened ShardedMaps
  import opened PlatformBuffer
  import KeyPool

  /** The sub-structures that the structs of a slice point to. */
  ghost function SubsOf(ms: seq<PlatformMetric>): set<object> {
    set i, o | 0 <= i < |ms| && o in Subs(ms[i]) :: o
  }

  /** The structs from number `i` on are unowned and still mean what they meant. */
  ghost predicate Pending(owners: Owners, metrics: seq<PlatformMetric>, views: seq<PlatformRecord>, i: nat)
    reads SubsOf(metrics)
  {
    |metrics| == |views| && forall j :: i <= j < |metrics| ==> Unowned(owners, metrics[j]) && Views(metrics)[j] == views[j]
  }

  /** Neither an entry nor a struct still to be added points to a sub-structure of a drained struct. */
  ghost predicate Frozen(owners: Owners, metrics: seq<PlatformMetric>, i: nat, drained: seq<PlatformMetric>) {
    && (forall d :: 0 <= d < |drained| ==> Unowned(owners, drained[d]))
    && (forall d, j :: 0 <= d < |drained| && i <= j < |metrics| ==> Subs(drained[d]) !! Subs(metrics[j]))
  }

  /** Record `i` of a batch: the records still to come stay unowned and unchanged. */
  method AddNext(pool: KeyPool.Pool, table: ShardedMap<PlatformMetric>, ghost owners: Owners, ghost flat: map<Bytes, PlatformRecord>,
                 metrics: seq<PlatformMetric>, i: nat, ghost views: seq<PlatformRecord>)
    returns (collided: bool, ghost owners': Owners)
    requires pool.Valid() && table.Valid() && Denotes(table.Cells, owners, flat) && OwnSubs(metrics)
    requires i < |metrics| && Pending(owners, metrics, views, i)
    modifies pool, pool.Buffers, pool.Stores
    modifies table`Cells, table.shards, owners.cells.Keys, owners.common.Keys, owners.cpu.Keys, owners.mem.Keys
    ensures pool.Valid() && pool.Grew()
    ensures table.Valid() && Denotes(table.Cells, owners', Absorb(PLATFORM, flat, views[i]))
    ensures collided <==> PLATFORM.key(views[i]) in flat
    ensures Pending(owners', metrics, views, i + 1)
    ensures Grown(owners, owners', Subs(metrics[i]))
    ensures forall n: PlatformMetric :: old(allocated(n)) && Unowned(owners, n) ==> View(n) == old(View(n))
  {
    AbsorbPlatform(flat, PartsOf(metrics[i]), views[i]);
    collided, owners' := AddOne(pool, table, owners, flat, metrics[i]);
    forall j | i < j < |metrics|
      ensures Unowned(owners', metrics[j]) && View(metrics[j]) == views[j]
    {
      assert Subs(metrics[i]) !! Subs(metrics[j]);
    }
  }

  // The flat run.

  /** The buffer, how many records have been added, and the records drained so far. */
  datatype Flat = Flat(buffer: map<Bytes, PlatformRecord>, next: nat, drained: seq<PlatformRecord>)

  /** One critical section: the next record added, or one shard drained. */
  datatype Turn = AddTurn | DrainTurn(shard: nat)

  /** The records of a shard in the order in which its keys happen to be visited. */
  ghost function Copies(part: map<Bytes, PlatformRecord>, order: seq<Bytes>): seq<PlatformRecord>
    requires forall k :: k in order ==> k in part
  {
    seq(|order|, j requires 0 <= j < |order| => part[order[j]])
  }

  ghost function PlayTurn(shardOf: Bytes -> nat, views: seq<PlatformRecord>, f: Flat, t: Turn, order: seq<Bytes>): Option<Flat> {
    match t
    case AddTurn => if f.next < |views| then Some(Flat(Absorb(PLATFORM, f.buffer, views[f.next]), f.next + 1, f.drained)) else None
    case DrainTurn(i) =>
      var part := Slice(f.buffer, shardOf, i);
      if (forall k :: k in order <==> k in part) && Distinct(order)
      then Some(Flat(f.buffer - part.Keys, f.next, f.drained + Copies(part, order))) else None
  }

  ghost predicate Distinct(order: seq<Bytes>) { forall i, j :: 0 <= i < j < |order| ==> order[i] != order[j] }

  /** The flat run of a schedule, given the visiting order of each drain. */
  ghost function Play(shardOf: Bytes -> nat, views: seq<PlatformRecord>, f: Flat, turns: seq<Turn>, orders: seq<seq<Bytes>>): Option<Flat>
    requires |orders| == |turns|
    decreases |turns|
  {
    if turns == [] then Some(f)
    else
      match Play(shardOf, views, f, turns[..|turns| - 1], orders[..|turns| - 1])
      case None => None
      case Some(g) => PlayTurn(shardOf, views, g, turns[|turns| - 1], orders[|turns| - 1])
  }

  lemma PlayMore(shardOf: Bytes -> nat, views: seq<PlatformRecord>, f: Flat, turns: seq<Turn>, orders: seq<seq<Bytes>>, t: Turn, order: seq<Bytes>)
    requires |orders| == |turns| && Play(shardOf, views, f, turns, orders).Some?
    ensures Play(shardOf, views, f, turns + [t], orders + [order])
         == PlayTurn(shardOf, views, Play(shardOf, views, f, turns, orders).value, t, order)
  {
    assert (turns + [t])[..|turns|] == turns && (orders + [order])[..|turns|] == orders;
  }

  lemma PlayTo(shardOf: Bytes -> nat, views: seq<PlatformRecord>, start: Flat, turns: seq<Turn>, t: nat, orders: seq<seq<Bytes>>,
               f: Flat, order: seq<Bytes>, g: Flat)
    requires t < |turns| && |orders| == t && Play(shardOf, views, start, turns[..t], orders) == Some(f)
    requires PlayTurn(shardOf, views, f, turns[t], order) == Some(g)
    ensures Play(shardOf, views, start, turns[..t + 1], orders + [order]) == Some(g)
  {
    PlayMore(shardOf, views, start, turns[..t], orders, turns[t], order);
    assert turns[..t + 1] == turns[..t] + [turns[t]];
  }

  /** A flat run only ever appends to what has been drained. */
  lemma {:induction false} PlayAppends(shardOf: Bytes -> nat, views: seq<PlatformRecord>, f: Flat, turns: seq<Turn>, orders: seq<seq<Bytes>>)
    requires |orders| == |turns| && Play(shardOf, views, f, turns, orders).Some?
    ensures f.drained <= Play(shardOf, views, f, turns, orders).value.drained
    decreases |turns|
  {
    if turns == [] {
    } else {
      PlayAppends(shardOf, views, f, turns[..|turns| - 1], orders[..|turns| - 1]);
    }
  }

  // The run on the heap.

  /** The heap is where the flat run is: the entries denote its buffer, the structs drained so far denote
      what it has drained, and no later turn can reach them. */
  ghost predicate Playing(table: ShardedMap<PlatformMetric>, owners: Owners, metrics: seq<PlatformMetric>, views: seq<PlatformRecord>,
                          f: Flat, drained: seq<PlatformMetric>)
    reads table, table.shards, table.Cells.Values
    reads owners.cells.Keys, owners.common.Keys, owners.cpu.Keys, owners.mem.Keys, SubsOf(metrics), SubsOf(drained)
  {
    && table.Valid() && Denotes(table.Cells, owners, f.buffer)
    && f.next <= |metrics| && Pending(owners, metrics, views, f.next)
    && Frozen(owners, metrics, f.next, drained) && Views(drained) == f.drained
  }

  /** What owners and the next struct to be added do not reach, owners' may reach only if it is new. */
  ghost predicate OwnedBefore(owners: Owners, owners': Owners, m: PlatformMetric, n: PlatformMetric) {
    && (n.common in owners'.common ==> n.common in owners.common || n.common in Subs(m))
    && (n.cpu in owners'.cpu ==> n.cpu in owners.cpu || n.cpu in Subs(m))
    && (n.mem in owners'.mem ==> n.mem in owners.mem || n.mem in Subs(m))
  }

  lemma FrozenAfterAdd(owners: Owners, owners': Owners, metrics: seq<PlatformMetric>, i: nat, drained: seq<PlatformMetric>)
    requires i < |metrics| && Frozen(owners, metrics, i, drained)
    requires forall d :: 0 <= d < |drained| ==> OwnedBefore(owners, owners', metrics[i], drained[d])
    ensures Frozen(owners', metrics, i + 1, drained)
  {
    forall d | 0 <= d < |drained|
      ensures Unowned(owners', drained[d])
    {
      assert OwnedBefore(owners, owners', metrics[i], drained[d]);
      assert Subs(drained[d]) !! Subs(metrics[i]);
    }
  }

  method TakeAdd(pool: KeyPool.Pool, table: ShardedMap<PlatformMetric>, ghost owners: Owners, metrics: seq<PlatformMetric>, i: nat,
                 ghost views: seq<PlatformRecord>, ghost f: Flat, ghost drained: seq<PlatformMetric>)
    returns (collided: bool, ghost owners': Owners, ghost f': Flat)
    requires pool.Valid() && Playing(table, owners, metrics, views, f, drained) && OwnSubs(metrics) && i == f.next < |metrics|
    modifies pool, pool.Buffers, pool.Stores
    modifies table`Cells, table.shards, owners.cells.Keys, owners.common.Keys, owners.cpu.Keys, owners.mem.Keys
    ensures pool.Valid() && pool.Grew()
    ensures f' == Flat(Absorb(PLATFORM, f.buffer, views[i]), i + 1, f.drained)
    ensures Playing(table, owners', metrics, views, f', drained)
    ensures collided <==> PLATFORM.key(views[i]) in f.buffer
    ensures Grown(owners, owners', Subs(metrics[i]))
  {
    collided, owners' := AddNext(pool, table, owners, f.buffer, metrics, i, views);
    forall d | 0 <= d < |drained|
      ensures OwnedBefore(owners, owners', metrics[i], drained[d])
    {
    }
    FrozenAfterAdd(owners, owners', metrics, i, drained);
    f' := Flat(Absorb(PLATFORM, f.buffer, views[i]), i + 1, f.drained);
  }

  // Draining one shard.

  /** What is owned by the entries outside a shard. */
  ghost function OwnersOutside(owners: Owners, shardOf: Bytes -> nat, i: nat): Owners {
    Owners(map c | c in owners.cells && shardOf(owners.cells[c]) != i :: owners.cells[c],
           map c | c in owners.common && shardOf(owners.common[c]) != i :: owners.common[c],
           map c | c in owners.cpu && shardOf(owners.cpu[c]) != i :: owners.cpu[c],
           map c | c in owners.mem && shardOf(owners.mem[c]) != i :: owners.mem[c])
  }

  lemma DenotesOutside(cells: Cells, owners: Owners, flat: map<Bytes, PlatformRecord>, shardOf: Bytes -> nat, i: nat)
    requires Denotes(cells, owners, flat)
    ensures Denotes(cells - Slice(cells, shardOf, i).Keys, OwnersOutside(owners, shardOf, i), flat - Slice(flat, shardOf, i).Keys)
  {
  }

  /** DrainShard, with its frame: it changes what no struct means. */
  method DrainShardFramed(table: ShardedMap<PlatformMetric>, i: nat) returns (drained: seq<PlatformMetric>, ghost order: seq<Bytes>)
    requires table.Valid() && i < SHARD_COUNT
    modifies table`Cells, table.shards
    ensures table.Valid() && table.Cells == old(table.Cells) - Slice(old(table.Cells), table.shardOf, i).Keys
    ensures CellsEnumerated(Slice(old(table.Cells), table.shardOf, i), order, drained)
    ensures forall n: PlatformMetric :: old(allocated(n)) ==> View(n) == old(View(n))
    ensures forall k :: k in old(table.Cells) ==> old(table.Cells)[k].m == old(table.Cells[k].m)
  {
    drained, order := table.DrainShard(i);
  }

  /** The entries there were still denote the buffer there was. */
  method DrainShardDenoting(table: ShardedMap<PlatformMetric>, ghost owners: Owners, ghost flat: map<Bytes, PlatformRecord>, i: nat)
    returns (drained: seq<PlatformMetric>, ghost order: seq<Bytes>)
    requires table.Valid() && Denotes(table.Cells, owners, flat) && i < SHARD_COUNT
    modifies table`Cells, table.shards
    ensures table.Valid() && table.Cells == old(table.Cells) - Slice(old(table.Cells), table.shardOf, i).Keys
    ensures Denotes(old(table.Cells), owners, flat)
    ensures CellsEnumerated(Slice(old(table.Cells), table.shardOf, i), order, drained)
    ensures forall n: PlatformMetric :: old(allocated(n)) ==> View(n) == old(View(n))
  {
    drained, order := DrainShardFramed(table, i);
  }

  /** The copies of a shard's entries denote its part of the buffer, and point to what those entries owned. */
  lemma ShardCopies(cells: Cells, owners: Owners, flat: map<Bytes, PlatformRecord>, shardOf: Bytes -> nat, i: nat,
                    order: seq<Bytes>, drained: seq<PlatformMetric>)
    requires Denotes(cells, owners, flat) && CellsEnumerated(Slice(cells, shardOf, i), order, drained)
    ensures Distinct(order) && forall k :: k in order <==> k in Slice(flat, shardOf, i)
    ensures Views(drained) == Copies(Slice(flat, shardOf, i), order)
    ensures forall d :: 0 <= d < |drained| ==> owners.OwnsSubs(order[d], drained[d]) && shardOf(order[d]) == i
  {
  }

  /** One shard drained: its entries are copied out once, and the entries left own nothing that the copies point to. */
  method DrainOne(table: ShardedMap<PlatformMetric>, ghost owners: Owners, ghost flat: map<Bytes, PlatformRecord>, i: nat)
    returns (drained: seq<PlatformMetric>, ghost order: seq<Bytes>, ghost owners': Owners)
    requires table.Valid() && Denotes(table.Cells, owners, flat) && i < SHARD_COUNT
    modifies table`Cells, table.shards
    ensures owners' == OwnersOutside(owners, table.shardOf, i)
    ensures table.Valid() && Denotes(table.Cells, owners', flat - Slice(flat, table.shardOf, i).Keys)
    ensures Distinct(order) && forall k :: k in order <==> k in Slice(flat, table.shardOf, i)
    ensures Views(drained) == Copies(Slice(flat, table.shardOf, i), order)
    ensures |order| == |drained| && forall d :: 0 <= d < |drained| ==> owners.OwnsSubs(order[d], drained[d]) && table.shardOf(order[d]) == i
    ensures forall n: PlatformMetric :: old(allocated(n)) ==> View(n) == old(View(n))
  {
    ghost var cells := table.Cells;
    drained, order := DrainShardDenoting(table, owners, flat, i);
    owners' := OwnersOutside(owners, table.shardOf, i);
    ShardCopies(cells, owners, flat, table.shardOf, i, order, drained);
    DenotesOutside(cells, owners, flat, table.shardOf, i);
  }

  lemma CopiesUnowned(owners: Owners, shardOf: Bytes -> nat, i: nat, order: seq<Bytes>, drained: seq<PlatformMetric>)
    requires |order| == |drained|
    requires forall d :: 0 <= d < |drained| ==> owners.OwnsSubs(order[d], drained[d]) && shardOf(order[d]) == i
    ensures forall d :: 0 <= d < |drained| ==> Unowned(OwnersOutside(owners, shardOf, i), drained[d])
  {
  }

  lemma CopiesApart(owners: Owners, order: seq<Bytes>, drained: seq<PlatformMetric>, n: PlatformMetric)
    requires |order| == |drained| && Unowned(owners, n)
    requires forall d :: 0 <= d < |drained| ==> owners.OwnsSubs(order[d], drained[d])
    ensures forall d :: 0 <= d < |drained| ==> Subs(drained[d]) !! Subs(n)
  {
  }

  lemma FrozenAfterDrain(owners: Owners, shardOf: Bytes -> nat, i: nat, metrics: seq<PlatformMetric>, views: seq<PlatformRecord>, next: nat,
                         drained: seq<PlatformMetric>, order: seq<Bytes>, more: seq<PlatformMetric>)
    requires Frozen(owners, metrics, next, drained) && Pending(owners, metrics, views, next) && |order| == |more|
    requires forall d :: 0 <= d < |more| ==> owners.OwnsSubs(order[d], more[d]) && shardOf(order[d]) == i
    ensures Frozen(OwnersOutside(owners, shardOf, i), metrics, next, drained + more)
    ensures Pending(OwnersOutside(owners, shardOf, i), metrics, views, next)
  {
    CopiesUnowned(owners, shardOf, i, order, more);
    forall j | next <= j < |metrics|
      ensures forall d :: 0 <= d < |more| ==> Subs(more[d]) !! Subs(metrics[j])
    {
      CopiesApart(owners, order, more, metrics[j]);
    }
  }

  lemma AddTurnPlayed(shardOf: Bytes -> nat, views: seq<PlatformRecord>, f: Flat)
    requires f.next < |views|
    ensures PlayTurn(shardOf, views, f, AddTurn, []) == Some(Flat(Absorb(PLATFORM, f.buffer, views[f.next]), f.next + 1, f.drained))
  {
  }

  lemma DrainTurnPlayed(shardOf: Bytes -> nat, views: seq<PlatformRecord>, f: Flat, i: nat, order: seq<Bytes>)
    requires Distinct(order) && forall k :: k in order <==> k in Slice(f.buffer, shardOf, i)
    ensures PlayTurn(shardOf, views, f, DrainTurn(i), order)
         == Some(Flat(f.buffer - Slice(f.buffer, shardOf, i).Keys, f.next, f.drained + Copies(Slice(f.buffer, shardOf, i), order)))
  {
  }

  lemma ViewsJoin(a: seq<PlatformMetric>, b: seq<PlatformMetric>)
    ensures Views(a + b) == Views(a) + Views(b)
  {
  }

  method TakeDrain(table: ShardedMap<PlatformMetric>, ghost owners: Owners, ghost metrics: seq<PlatformMetric>,
                   ghost views: seq<PlatformRecord>, ghost f: Flat, drained: seq<PlatformMetric>, i: nat)
    returns (more: seq<PlatformMetric>, ghost order: seq<Bytes>, ghost owners': Owners, ghost f': Flat)
    requires Playing(table, owners, metrics, views, f, drained) && i < SHARD_COUNT
    modifies table`Cells, table.shards
    ensures owners' == OwnersOutside(owners, table.shardOf, i)
    ensures PlayTurn(table.shardOf, views, f, DrainTurn(i), order) == Some(f') && f'.next == f.next
    ensures Playing(table, owners', metrics, views, f', drained + more)
  {
    ghost var buffer := f.buffer;
    more, order, owners' := DrainOne(table, owners, buffer, i);
    forall d | 0 <= d < |drained|
      ensures Views(drained)[d] == f.drained[d]
    {
      assert View(drained[d]) == f.drained[d];
    }
    FrozenAfterDrain(owners, table.shardOf, i, metrics, views, f.next, drained, order, more);
    DrainTurnPlayed(table.shardOf, views, f, i, order);
    f' := PlayTurn(table.shardOf, views, f, DrainTurn(i), order).value;
    ViewsJoin(drained, more);
    assert Views(drained) == f.drained;
  }

  // Schedules.

  function Adds(turns: seq<Turn>): nat {
    if turns == [] then 0 else Adds(turns[..|turns| - 1]) + if turns[|turns| - 1].AddTurn? then 1 else 0
  }

  lemma AddsNext(turns: seq<Turn>, t: nat)
    requires t < |turns|
    ensures Adds(turns[..t + 1]) == Adds(turns[..t]) + if turns[t].AddTurn? then 1 else 0
  {
    assert turns[..t + 1][..t] == turns[..t];
  }

  lemma {:induction false} AddsMonotone(turns: seq<Turn>, t: nat)
    requires t <= |turns|
    ensures Adds(turns[..t]) <= Adds(turns)
    decreases |turns| - t
  {
    if t == |turns| {
      assert turns[..t] == turns;
    } else {
      AddsNext(turns, t);
      AddsMonotone(turns, t + 1);
    }
  }

  /** One turn on the heap is one turn of the flat run. */
  method TakeTurn(pool: KeyPool.Pool, table: ShardedMap<PlatformMetric>, ghost owners: Owners, metrics: seq<PlatformMetric>, next: nat,
                  ghost views: seq<PlatformRecord>, ghost f: Flat, drained: seq<PlatformMetric>, turn: Turn)
    returns (more: seq<PlatformMetric>, ghost order: seq<Bytes>, ghost owners': Owners, ghost f': Flat)
    requires pool.Valid() && Playing(table, owners, metrics, views, f, drained) && OwnSubs(metrics) && next == f.next
    requires if turn.AddTurn? then next < |metrics| else turn.shard < SHARD_COUNT
    modifies pool, pool.Buffers, pool.Stores
    modifies table`Cells, table.shards, owners.cells.Keys, owners.common.Keys, owners.cpu.Keys, owners.mem.Keys
    ensures pool.Valid() && pool.Grew()
    ensures PlayTurn(table.shardOf, views, f, turn, order) == Some(f') && f'.next == next + if turn.AddTurn? then 1 else 0
    ensures Playing(table, owners', metrics, views, f', drained + more)
    ensures Grown(owners, owners', SubsOf(metrics))
  {
    match turn {
      case AddTurn =>
        assert Subs(metrics[next]) <= SubsOf(metrics);
        var collided;
        collided, owners', f' := TakeAdd(pool, table, owners, metrics, next, views, f, drained);
        more, order := [], [];
        AddTurnPlayed(table.shardOf, views, f);
        assert drained + more == drained;
      case DrainTurn(i) =>
        more, order, owners', f' := TakeDrain(table, owners, metrics, views, f, drained, i);
    }
  }

  /** Drained records are frozen, under every schedule of single-record Adds and single-shard drains: the
      entries denote the buffer of the flat run, the structs drained so far, those drained earlier included,
      denote exactly the records that the flat run drained, and they share no sub-structure with any entry or
      with any record still to be added. */
  method PlaySchedule(pool: KeyPool.Pool, table: ShardedMap<PlatformMetric>, ghost owners: Owners, ghost flat: map<Bytes, PlatformRecord>,
                      earlier: seq<PlatformMetric>, metrics: seq<PlatformMetric>, turns: seq<Turn>)
    returns (drained: seq<PlatformMetric>, ghost orders: seq<seq<Bytes>>, ghost owners': Owners, ghost f: Flat)
    requires pool.Valid() && OwnSubs(metrics)
    requires Playing(table, owners, metrics, Views(metrics), Flat(flat, 0, Views(earlier)), earlier)
    requires Adds(turns) <= |metrics| && forall t :: t in turns && t.DrainTurn? ==> t.shard < SHARD_COUNT
    modifies pool, pool.Buffers, pool.Stores
    modifies table`Cells, table.shards, owners.cells.Keys, owners.common.Keys, owners.cpu.Keys, owners.mem.Keys, SubsOf(metrics)
    ensures pool.Valid() && |orders| == |turns|
    ensures Play(table.shardOf, old(Views(metrics)), Flat(flat, 0, old(Views(earlier))), turns, orders) == Some(f)
    ensures Playing(table, owners', metrics, old(Views(metrics)), f, drained)
    ensures earlier <= drained
  {
    ghost var views := Views(metrics);
    drained, orders, owners', f := earlier, [], owners, Flat(flat, 0, Views(earlier));
    ghost var start := f;
    var next := 0;
    for t := 0 to |turns|
      invariant pool.Valid() && pool.Grew()
      invariant |orders| == t && Play(table.shardOf, views, start, turns[..t], orders) == Some(f)
      invariant Playing(table, owners', metrics, views, f, drained)
      invariant Grown(owners, owners', SubsOf(metrics))
      invariant next == f.next == Adds(turns[..t])
      invariant earlier <= drained
    {
      AddsNext(turns, t);
      AddsMonotone(turns, t + 1);
      var more;
      ghost var order, g;
      more, order, owners', g := TakeTurn(pool, table, owners', metrics, next, views, f, drained, turns[t]);
      PlayTo(table.shardOf, views, start, turns, t, orders, f, order, g);
      orders, f, drained := orders + [order], g, drained + more;
      next := next + if turns[t].AddTurn? then 1 else 0;
    }
    assert turns[..|turns|] == turns;
  }

  // The Add loop and the whole drain.

  lemma AbsorbAllStep(flat: map<Bytes, PlatformRecord>, views: seq<PlatformRecord>, i: nat, now: map<Bytes, PlatformRecord>, count: nat)
    requires i < |views| && now == AbsorbAll(PLATFORM, flat, views[..i]) && count == Collisions(PLATFORM, flat, views[..i])
    ensures AbsorbAll(PLATFORM, flat, views[..i + 1]) == Absorb(PLATFORM, now, views[i])
    ensures Collisions(PLATFORM, flat, views[..i + 1]) == count + if PLATFORM.key(views[i]) in now then 1 else 0
  {
    assert views[..i + 1][..i] == views[..i];
  }

  /** The loop of one Add call: it absorbs its records in order and counts their collisions. Structs `beside`
      that share nothing with the entries or the new records keep their meaning and stay out of reach. */
  method AddAll(pool: KeyPool.Pool, table: ShardedMap<PlatformMetric>, ghost owners: Owners, ghost flat: map<Bytes, PlatformRecord>,
                metrics: seq<PlatformMetric>, ghost beside: seq<PlatformMetric>) returns (collisions: nat, ghost owners': Owners)
    requires pool.Valid() && OwnSubs(metrics)
    requires Playing(table, owners, metrics, Views(metrics), Flat(flat, 0, Views(beside)), beside)
    modifies pool, pool.Buffers, pool.Stores
    modifies table`Cells, table.shards, owners.cells.Keys, owners.common.Keys, owners.cpu.Keys, owners.mem.Keys, SubsOf(metrics)
    ensures pool.Valid() && pool.Grew()
    ensures table.Valid() && Denotes(table.Cells, owners', AbsorbAll(PLATFORM, flat, old(Views(metrics))))
    ensures collisions == Collisions(PLATFORM, flat, old(Views(metrics)))
    ensures Grown(owners, owners', SubsOf(metrics))
    ensures Views(beside) == old(Views(beside)) && Frozen(owners', metrics, |metrics|, beside)
  {
    collisions, owners' := 0, owners;
    ghost var views, kept := Views(metrics), Views(beside);
    ghost var f := Flat(flat, 0, kept);
    for i := 0 to |metrics|
      invariant pool.Valid() && pool.Grew()
      invariant Playing(table, owners', metrics, views, f, beside) && f.next == i && f.drained == kept
      invariant f.buffer == AbsorbAll(PLATFORM, flat, views[..i]) && collisions == Collisions(PLATFORM, flat, views[..i])
      invariant Grown(owners, owners', SubsOf(metrics))
    {
      AbsorbAllStep(flat, views, i, f.buffer, collisions);
      assert Subs(metrics[i]) <= SubsOf(metrics);
      var collided;
      collided, owners', f := TakeAdd(pool, table, owners', metrics, i, views, f, beside);
      collisions := collisions + if collided then 1 else 0;
    }
    assert views[..|metrics|] == views;
  }

  const NO_OWNERS := Owners(map[], map[], map[], map[])

  /** `order` lists the keys of `flat` without repetition, and the structs denote the records under them. */
  ghost predicate Captures(flat: map<Bytes, PlatformRecord>, order: seq<Bytes>, drained: seq<PlatformMetric>)
    reads SubsOf(drained)
  {
    Enumerates(flat, order, Views(drained))
  }

  /** Copies of all entries of a buffer that denotes `flat` capture `flat`. */
  lemma CopiesCapture(owners: Owners, flat: map<Bytes, PlatformRecord>, was: map<Bytes, PlatformMetric>,
                      order: seq<Bytes>, drained: seq<PlatformMetric>)
    requires Enumerates(was, order, drained) && was.Keys == flat.Keys
    requires forall k :: k in was ==> owners.OwnsSubs(k, was[k]) && View(was[k]) == flat[k]
    ensures Captures(flat, order, drained)
    ensures forall i :: 0 <= i < |drained| ==> owners.OwnsSubs(order[i], drained[i])
  {
    forall i | 0 <= i < |drained|
      ensures order[i] in flat && View(drained[i]) == flat[order[i]] && owners.OwnsSubs(order[i], drained[i])
    {
      assert drained[i] == was[order[i]];
    }
  }

  /** SwapAll, with its frame: it changes what no struct means. */
  method SwapAllFramed(table: ShardedMap<PlatformMetric>) returns (drained: seq<PlatformMetric>, ghost order: seq<Bytes>)
    requires table.Valid()
    modifies table`Cells, table.shards
    ensures table.Valid() && table.Cells == map[]
    ensures Enumerates(old(table.Contents()), order, drained)
    ensures forall n: PlatformMetric :: old(allocated(n)) ==> View(n) == old(View(n))
  {
    drained, order := table.SwapAll();
  }

  /** The drain of a flush: every entry is copied out once, and the buffer keeps a hold on none of them. */
  method Drain(table: ShardedMap<PlatformMetric>, ghost owners: Owners, ghost flat: map<Bytes, PlatformRecord>)
    returns (drained: seq<PlatformMetric>, ghost order: seq<Bytes>)
    requires table.Valid() && Denotes(table.Cells, owners, flat)
    modifies table`Cells, table.shards
    ensures table.Valid() && table.Cells == map[] && Denotes(table.Cells, NO_OWNERS, map[])
    ensures Captures(flat, order, drained)
    ensures forall i :: 0 <= i < |drained| ==> owners.OwnsSubs(order[i], drained[i])
    ensures Enumerates(old(table.Contents()), order, drained)
    ensures forall n: PlatformMetric :: old(allocated(n)) ==> View(n) == old(View(n))
  {
    ghost var was := table.Contents();
    assert forall k :: k in was ==> owners.OwnsSubs(k, was[k]) && View(was[k]) == flat[k];
    drained, order := SwapAllFramed(table);
    CopiesCapture(owners, flat, was, order, drained);
  }

  lemma DrainedOutOfReach(owners: Owners, more: seq<PlatformMetric>, order: seq<Bytes>, drained: seq<PlatformMetric>)
    requires |order| == |drained| && forall d :: 0 <= d < |drained| ==> owners.OwnsSubs(order[d], drained[d])
    requires forall i :: 0 <= i < |more| ==> Unowned(owners, more[i])
    ensures Frozen(NO_OWNERS, more, 0, drained)
  {
    forall j | 0 <= j < |more|
      ensures forall d :: 0 <= d < |drained| ==> Subs(drained[d]) !! Subs(more[j])
    {
      CopiesApart(owners, order, drained, more[j]);
    }
  }

  /** An uninterrupted drain and one Add call after it: the drained slice still denotes exactly what the buffer
      held, and stays out of reach of whatever comes next. */
  method AddAfterDrain(pool: KeyPool.Pool, table: ShardedMap<PlatformMetric>, ghost owners: Owners, ghost flat: map<Bytes, PlatformRecord>,
                       more: seq<PlatformMetric>)
    returns (drained: seq<PlatformMetric>, ghost order: seq<Bytes>, collisions: nat, ghost owners': Owners)
    requires pool.Valid() && table.Valid() && Denotes(table.Cells, owners, flat)
    requires OwnSubs(more) && forall i :: 0 <= i < |more| ==> Unowned(owners, more[i])
    modifies pool, pool.Buffers, pool.Stores, table`Cells, table.shards, SubsOf(more)
    ensures pool.Valid() && Captures(flat, order, drained) && Frozen(owners', more, |more|, drained)
    ensures table.Valid() && Denotes(table.Cells, owners', AbsorbAll(PLATFORM, map[], old(Views(more))))
  {
    drained, order := DrainBeside(pool, table, owners, flat, more);
    DrainedOutOfReach(owners, more, order, drained);
    collisions, owners' := AddAll(pool, table, NO_OWNERS, map[], more, drained);
  }

  method DrainBeside(ghost pool: KeyPool.Pool, table: ShardedMap<PlatformMetric>, ghost owners: Owners, ghost flat: map<Bytes, PlatformRecord>,
                     ghost more: seq<PlatformMetric>) returns (drained: seq<PlatformMetric>, ghost order: seq<Bytes>)
    requires pool.Valid() && table.Valid() && Denotes(table.Cells, owners, flat)
    modifies table`Cells, table.shards
    ensures pool.Valid() && table.Valid() && Denotes(table.Cells, NO_OWNERS, map[]) && Captures(flat, order, drained)
    ensures |order| == |drained| && forall i :: 0 <= i < |drained| ==> owners.OwnsSubs(order[i], drained[i])
    ensures Views(more) == old(Views(more))
  {
    ghost var views := Views(more);
    drained, order := Drain(table, owners, flat);
    assert Views(more) == views;
  }

  // The proviso.

  function WithCommon(common: CommonData): PlatformMetric { PlatformMetric(0, [], [], common, null, null, map[]) }

  lemma SingleEnumerated<T>(m: map<Bytes, T>, key: Bytes, order: seq<Bytes>, values: seq<T>)
    requires m.Keys == {key} && Enumerates(m, order, values)
    ensures values == [m[key]]
  {
    assert key in order && forall i :: 0 <= i < |order| ==> order[i] == key;
    assert order[0] == order[|order| - 1];
  }

  /** Draining a buffer of one entry copies that entry. */
  method DrainSingle(table: ShardedMap<PlatformMetric>, ghost owners: Owners, ghost flat: map<Bytes, PlatformRecord>,
                     ghost key: Bytes, ghost m: PlatformMetric) returns (drained: seq<PlatformMetric>)
    requires table.Valid() && Denotes(table.Cells, owners, flat) && flat.Keys == {key} && table.Contents()[key] == m
    modifies table`Cells, table.shards
    ensures table.Valid() && Denotes(table.Cells, NO_OWNERS, map[]) && drained == [m]
    ensures forall n: PlatformMetric :: old(allocated(n)) ==> View(n) == old(View(n))
  {
    ghost var was, order := table.Contents(), [];
    drained, order := Drain(table, owners, flat);
    SingleEnumerated(was, key, order, drained);
  }

  /** A merge into an entry with common data rewrites that data in place. */
  method AddToShared(table: ShardedMap<PlatformMetric>, ghost owners: Owners, ghost flat: map<Bytes, PlatformRecord>,
                     key: Bytes, ghost common: CommonData, metric: PlatformMetric) returns (ghost merged: PlatformRecord)
    requires table.Valid() && Denotes(table.Cells, owners, flat) && Unowned(owners, metric)
    requires key in flat && table.Contents()[key].common == common
    modifies table`Cells, table.shards, owners.cells.Keys, owners.common.Keys, owners.cpu.Keys, owners.mem.Keys
    ensures merged == MergePlatform(flat[key], old(View(metric))) && Some(common.state) == merged.common
  {
    merged := MergePlatform(flat[key], View(metric));
    var collided;
    ghost var owners';
    collided, owners' := AddKeyed(table, owners, flat, key, metric);
    assert View(table.Contents()[key]) == merged;
  }

  method AddToEmpty(table: ShardedMap<PlatformMetric>, key: Bytes, metric: PlatformMetric) returns (ghost owners: Owners)
    requires table.Valid() && Denotes(table.Cells, NO_OWNERS, map[])
    modifies table`Cells, table.shards
    ensures table.Valid() && Denotes(table.Cells, owners, map[key := View(metric)])
    ensures table.Contents().Keys == {key} && table.Contents()[key] == metric
    ensures Grown(NO_OWNERS, owners, Subs(metric))
    ensures forall n: PlatformMetric :: old(allocated(n)) && Subs(n) !! Subs(metric) ==> Unowned(owners, n)
    ensures forall n: PlatformMetric :: old(allocated(n)) ==> View(n) == old(View(n))
  {
    var collided;
    collided, owners := AddKeyed(table, NO_OWNERS, map[], key, metric);
    assert table.Contents().Keys == {key};
  }

  /** Add one record and drain it: the copy is the record itself, sub-structures included. */
  method AddAndDrain(table: ShardedMap<PlatformMetric>, key: Bytes, metric: PlatformMetric) returns (drained: seq<PlatformMetric>)
    requires table.Valid() && Denotes(table.Cells, NO_OWNERS, map[])
    modifies table`Cells, table.shards
    ensures table.Valid() && Denotes(table.Cells, NO_OWNERS, map[]) && drained == [metric]
    ensures forall n: PlatformMetric :: old(allocated(n)) ==> View(n) == old(View(n))
  {
    ghost var owners := AddToEmpty(table, key, metric);
    drained := DrainSingle(table, owners, map[key := View(metric)], key, metric);
  }

  /** Add one record, and merge another into it. */
  method AddAndMerge(table: ShardedMap<PlatformMetric>, key: Bytes, metric: PlatformMetric, newer: PlatformMetric)
    requires table.Valid() && Denotes(table.Cells, NO_OWNERS, map[]) && metric.common != null
    requires newer.common != metric.common && newer.cpu == null && newer.mem == null
    modifies table`Cells, table.shards, Subs(metric)
    ensures Some(metric.common.state) == MergePlatform(old(View(metric)), old(View(newer))).common
  {
    ghost var merged;
    ghost var owners := AddToEmpty(table, key, metric);
    merged := AddToShared(table, owners, map[key := View(metric)], key, metric.common, newer);
  }

  /** The proviso that records own their sub-structures is needed: add one record, drain it, add a second
      record that shares its common data, and merge a third into that; the drained copy has changed. */
  method SharedSubStructureLeaks(shardOf: Bytes -> nat) returns (drained: seq<PlatformMetric>, ghost before: PlatformRecord)
    requires MasksToShard(shardOf)
    ensures |drained| == 1 && before.common == Some(FRESH_COMMON.(operStatus := Some("UP")))
    ensures CommonView(drained[0].common) == Some(FRESH_COMMON.(operStatus := Some("DOWN")))
  {
    var up := new CommonData(FRESH_COMMON.(operStatus := Some("UP")));
    var down := new CommonData(FRESH_COMMON.(operStatus := Some("DOWN")));
    var table := new ShardedMap<PlatformMetric>(shardOf);
    var first, second, third := WithCommon(up), WithCommon(up), WithCommon(down);
    var key := PartsOf(first).Key();
    drained := AddAndDrain(table, key, first);
    before := View(drained[0]);
    AddAndMerge(table, key, second, third);
  }
}
