/** The platform buffer on the heap: structs that point to sub-structures, merged in place,
    proved against the flat value-level buffer, with what a drained slice can still be reached by. */
module PlatformBuffer {
  import opened Sequences
  import opened Keys
  import opened FlatBuffer
  import opened Metrics
  import opened ShardedMaps
  import KeyPool

  class CommonData {
    var state: CommonState

    constructor (state: CommonState)
      ensures this.state == state
    {
      this.state := state;
    }

    /** Overwrites each merged field that `source` sets. */
    method Merge(source: CommonState)
      modifies this
      ensures Some(state) == MergeCommon(Some(old(state)), Some(source))
    {
      if source.operStatus.Some? {
        state := state.(operStatus := source.operStatus);
      }
      if source.uptime.Some? {
        state := state.(uptime := source.uptime);
      }
      if source.usedPower.Some? {
        state := state.(usedPower := source.usedPower);
      }
      if source.allocatedPower.Some? {
        state := state.(allocatedPower := source.allocatedPower);
      }
    }
  }

  class CPUData {
    var group: AlarmGroup

    constructor (group: AlarmGroup)
      ensures this.group == group
    {
      this.group := group;
    }
  }

  class MemData {
    var group: AlarmGroup

    constructor (group: AlarmGroup)
      ensures this.group == group
    {
      this.group := group;
    }
  }

  /** A struct value: copying it copies the pointers, not what they point to. */
  datatype PlatformMetric = PlatformMetric(timestamp: int, systemID: Bytes, componentName: Bytes,
                                           common: CommonData?, cpu: CPUData?, mem: MemData?,
                                           others: Unmerged)

  /** The sub-structures a struct points to. */
  ghost function Subs(m: PlatformMetric): set<object> {
    (if m.common != null then {m.common as object} else {})
    + (if m.cpu != null then {m.cpu as object} else {})
    + (if m.mem != null then {m.mem as object} else {})
  }

  ghost function CommonView(p: CommonData?): Option<CommonState>
    reads p
  {
    if p == null then None else Some(p.state)
  }

  ghost function CPUView(p: CPUData?): Option<AlarmGroup>
    reads p
  {
    if p == null then None else Some(p.group)
  }

  ghost function MemView(p: MemData?): Option<AlarmGroup>
    reads p
  {
    if p == null then None else Some(p.group)
  }

  /** The record a struct denotes in the current heap. */
  ghost function View(m: PlatformMetric): PlatformRecord
    reads m.common, m.cpu, m.mem
  {
    PlatformRecord(m.timestamp, m.systemID, m.componentName, CommonView(m.common), CPUView(m.cpu), MemView(m.mem), m.others)
  }

  /** The two structs point to no common sub-structure. */
  ghost predicate NoneShared(m: PlatformMetric, n: PlatformMetric) {
    && (m.common == null || m.common != n.common)
    && (m.cpu == null || m.cpu != n.cpu)
    && (m.mem == null || m.mem != n.mem)
  }

  method MergeCommonPart(existing: Cell<PlatformMetric>, newer: CommonData?)
    modifies existing, existing.m.common
    ensures existing.m == old(existing.m).(common := existing.m.common)
    ensures CommonView(existing.m.common) == MergeCommon(old(CommonView(existing.m.common)), old(CommonView(newer)))
    ensures existing.m.common == old(existing.m.common) || fresh(existing.m.common)
    ensures old(existing.m.common) != null ==> existing.m.common == old(existing.m.common)
  {
    if newer != null {
      if existing.m.common == null {
        var made := new CommonData(FRESH_COMMON);
        existing.m := existing.m.(common := made);
      }
      existing.m.common.Merge(newer.state);
    }
  }

  method MergeMemPart(existing: Cell<PlatformMetric>, newer: MemData?)
    modifies existing, existing.m.mem
    ensures existing.m == old(existing.m).(mem := existing.m.mem)
    ensures MemView(existing.m.mem) == MergeGroup(old(MemView(existing.m.mem)), old(MemView(newer)))
    ensures existing.m.mem == old(existing.m.mem) || fresh(existing.m.mem)
  {
    if newer != null && newer.group.alarmStatus.Some? {
      if existing.m.mem == null {
        var made := new MemData(FRESH_GROUP);
        existing.m := existing.m.(mem := made);
      }
      existing.m.mem.group := existing.m.mem.group.(alarmStatus := newer.group.alarmStatus);
    }
  }

  method MergeCPUPart(existing: Cell<PlatformMetric>, newer: CPUData?)
    modifies existing, existing.m.cpu
    ensures existing.m == old(existing.m).(cpu := existing.m.cpu)
    ensures CPUView(existing.m.cpu) == MergeGroup(old(CPUView(existing.m.cpu)), old(CPUView(newer)))
    ensures existing.m.cpu == old(existing.m.cpu) || fresh(existing.m.cpu)
  {
    if newer != null && newer.group.alarmStatus.Some? {
      if existing.m.cpu == null {
        var made := new CPUData(FRESH_GROUP);
        existing.m := existing.m.(cpu := made);
      }
      existing.m.cpu.group := existing.m.cpu.group.(alarmStatus := newer.group.alarmStatus);
    }
  }

  method AdvanceTime(existing: Cell<PlatformMetric>, timestamp: int)
    modifies existing
    ensures existing.m == old(existing.m).(timestamp := MaxTime(old(existing.m).timestamp, timestamp))
  {
    if timestamp > existing.m.timestamp {
      existing.m := existing.m.(timestamp := timestamp);
    }
  }

  method MergeSubStructures(existing: Cell<PlatformMetric>, newer: PlatformMetric)
    modifies existing, existing.m.common, existing.m.cpu, existing.m.mem
    ensures existing.m == old(existing.m).(common := existing.m.common, cpu := existing.m.cpu, mem := existing.m.mem)
    ensures CommonView(existing.m.common) == MergeCommon(old(CommonView(existing.m.common)), old(CommonView(newer.common)))
    ensures CPUView(existing.m.cpu) == MergeGroup(old(CPUView(existing.m.cpu)), old(CPUView(newer.cpu)))
    ensures MemView(existing.m.mem) == MergeGroup(old(MemView(existing.m.mem)), old(MemView(newer.mem)))
    ensures existing.m.common == old(existing.m.common) || fresh(existing.m.common)
    ensures existing.m.cpu == old(existing.m.cpu) || fresh(existing.m.cpu)
    ensures existing.m.mem == old(existing.m.mem) || fresh(existing.m.mem)
    ensures old(existing.m.common) != null ==> existing.m.common == old(existing.m.common)
  {
    MergeCommonPart(existing, newer.common);
    MergeMemPart(existing, newer.mem);
    MergeCPUPart(existing, newer.cpu);
  }

  /** Merges `newer` into the entry in place. The entry never adopts a sub-structure of `newer`;
      this holds even when the two already share one. */
  method MergePlatformMetric(existing: Cell<PlatformMetric>, newer: PlatformMetric)
    modifies existing, existing.m.common, existing.m.cpu, existing.m.mem
    ensures View(existing.m) == MergePlatform(old(View(existing.m)), old(View(newer)))
    ensures existing.m.common == old(existing.m.common) || fresh(existing.m.common)
    ensures existing.m.cpu == old(existing.m.cpu) || fresh(existing.m.cpu)
    ensures existing.m.mem == old(existing.m.mem) || fresh(existing.m.mem)
    ensures old(existing.m.common) != null ==> existing.m.common == old(existing.m.common)
  {
    MergeSubStructures(existing, newer);
    AdvanceTime(existing, newer.timestamp);
  }

  /** The merge, with its frame: structs that share nothing with the entry keep their meaning. */
  method MergeFramed(ghost table: ShardedMap<PlatformMetric>, existing: Cell<PlatformMetric>, newer: PlatformMetric)
    requires table.Valid()
    modifies existing, existing.m.common, existing.m.cpu, existing.m.mem
    ensures View(existing.m) == MergePlatform(old(View(existing.m)), old(View(newer)))
    ensures existing.m.common == old(existing.m.common) || fresh(existing.m.common)
    ensures existing.m.cpu == old(existing.m.cpu) || fresh(existing.m.cpu)
    ensures existing.m.mem == old(existing.m.mem) || fresh(existing.m.mem)
    ensures forall n: PlatformMetric :: old(allocated(n)) && NoneShared(old(existing.m), n) ==> View(n) == old(View(n))
    ensures table.Valid() && table.Cells == old(table.Cells)
    ensures old(existing.m.common) != null ==> existing.m.common == old(existing.m.common)
  {
    MergePlatformMetric(existing, newer);
  }

  /** The values denoted by a slice of structs. */
  ghost function Views(ms: seq<PlatformMetric>): (r: seq<PlatformRecord>)
    reads set i, o | 0 <= i < |ms| && o in Subs(ms[i]) :: o
    ensures |r| == |ms| && forall i :: 0 <= i < |ms| ==> r[i] == View(ms[i])
  {
    seq(|ms|, i requires 0 <= i < |ms| reads if 0 <= i < |ms| then Subs(ms[i]) else {} => View(ms[i]))
  }

  /** No two structs of the slice point to the same sub-structure. */
  ghost predicate OwnSubs(ms: seq<PlatformMetric>) {
    forall i, j :: 0 <= i < j < |ms| ==> Subs(ms[i]) !! Subs(ms[j])
  }

  type Cells = map<Bytes, Cell<PlatformMetric>>

  /** For every cell and sub-structure that an entry is made of, the key of that one entry. */
  datatype Owners = Owners(cells: map<Cell<PlatformMetric>, Bytes>,
                           common: map<CommonData, Bytes>, cpu: map<CPUData, Bytes>, mem: map<MemData, Bytes>) {
    ghost predicate Owns(k: Bytes, cell: Cell<PlatformMetric>)
      reads cell
    {
      cell in cells && cells[cell] == k && OwnsSubs(k, cell.m)
    }

    ghost predicate OwnsSubs(k: Bytes, m: PlatformMetric) {
      && (m.common != null ==> m.common in common && common[m.common] == k)
      && (m.cpu != null ==> m.cpu in cpu && cpu[m.cpu] == k)
      && (m.mem != null ==> m.mem in mem && mem[m.mem] == k)
    }

    ghost function Adopt(k: Bytes, cell: Cell<PlatformMetric>): Owners
      reads cell
    {
      var m := cell.m;
      Owners(cells[cell := k],
             if m.common == null then common else common[m.common := k],
             if m.cpu == null then cpu else cpu[m.cpu := k],
             if m.mem == null then mem else mem[m.mem := k])
    }
  }

  /** The entries denote the flat buffer `flat`, and no two of them share a cell or a sub-structure. */
  ghost predicate Denotes(cells: Cells, owners: Owners, flat: map<Bytes, PlatformRecord>)
    reads owners.cells.Keys, owners.common.Keys, owners.cpu.Keys, owners.mem.Keys
  {
    && cells.Keys == flat.Keys
    && (forall k :: k in cells ==> cells[k] in owners.cells && owners.Owns(k, cells[k]) && View(cells[k].m) == flat[k])
  }

  /** Re-adopting an entry under its key leaves the ownership of every other entry as it was. */
  lemma AdoptKeepsOthers(owners: Owners, k: Bytes, was: PlatformMetric, cell: Cell<PlatformMetric>, l: Bytes, other: Cell<PlatformMetric>)
    requires owners.OwnsSubs(k, was) && owners.Owns(l, other) && k != l
    requires cell in owners.cells ==> owners.cells[cell] == k
    requires cell.m.common == was.common || cell.m.common !in owners.common
    requires cell.m.cpu == was.cpu || cell.m.cpu !in owners.cpu
    requires cell.m.mem == was.mem || cell.m.mem !in owners.mem
    ensures owners.Adopt(k, cell).Owns(l, other)
  {
  }

  lemma DenotesAfterMerge(cells: Cells, owners: Owners, flat: map<Bytes, PlatformRecord>, key: Bytes, was: PlatformMetric)
    requires key in cells && cells.Keys == flat.Keys && owners.OwnsSubs(key, was)
    requires cells[key] in owners.cells && owners.cells[cells[key]] == key
    requires forall l :: l in cells && l != key ==> owners.Owns(l, cells[l]) && View(cells[l].m) == flat[l]
    requires cells[key].m.common == was.common || cells[key].m.common !in owners.common
    requires cells[key].m.cpu == was.cpu || cells[key].m.cpu !in owners.cpu
    requires cells[key].m.mem == was.mem || cells[key].m.mem !in owners.mem
    ensures Denotes(cells, owners.Adopt(key, cells[key]), flat[key := View(cells[key].m)])
  {
    forall l | l in cells && l != key
      ensures owners.Adopt(key, cells[key]).Owns(l, cells[l])
    {
      AdoptKeepsOthers(owners, key, was, cells[key], l, cells[l]);
    }
  }

  /** All later owned sub-structures were owned before, come from `added`, or are newly allocated. */
  twostate predicate Grown(before: Owners, new after: Owners, added: set<object>) {
    && (forall c :: c in after.cells ==> c in before.cells || fresh(c))
    && (forall c :: c in after.common ==> c in before.common || c in added || fresh(c))
    && (forall c :: c in after.cpu ==> c in before.cpu || c in added || fresh(c))
    && (forall c :: c in after.mem ==> c in before.mem || c in added || fresh(c))
  }

  function AbsorbAt(flat: map<Bytes, PlatformRecord>, key: Bytes, r: PlatformRecord): map<Bytes, PlatformRecord> {
    flat[key := if key in flat then MergePlatform(flat[key], r) else r]
  }

  /** A merge in place changes the denotation at its key only. */
  method MergeInPlace(ghost table: ShardedMap<PlatformMetric>, ghost owners: Owners, ghost flat: map<Bytes, PlatformRecord>,
                      ghost key: Bytes, existing: Cell<PlatformMetric>, metric: PlatformMetric) returns (ghost owners': Owners)
    requires table.Valid() && Denotes(table.Cells, owners, flat) && key in table.Cells && existing == table.Cells[key]
    modifies existing, existing.m.common, existing.m.cpu, existing.m.mem
    ensures table.Valid() && table.Cells == old(table.Cells)
    ensures Denotes(table.Cells, owners', flat[key := MergePlatform(flat[key], old(View(metric)))])
    ensures owners' == owners.Adopt(key, existing)
    ensures existing.m.common == old(existing.m.common) || fresh(existing.m.common)
    ensures existing.m.cpu == old(existing.m.cpu) || fresh(existing.m.cpu)
    ensures existing.m.mem == old(existing.m.mem) || fresh(existing.m.mem)
    ensures forall n: PlatformMetric :: old(allocated(n)) && NoneShared(old(existing.m), n) ==> View(n) == old(View(n))
    ensures old(existing.m.common) != null ==> existing.m.common == old(existing.m.common)
  {
    ghost var m, cells := existing.m, table.Cells;
    MergeFramed(table, existing, metric);
    forall l | l in cells && l != key
      ensures owners.Owns(l, cells[l]) && View(cells[l].m) == flat[l]
    {
      assert NoneShared(m, cells[l].m);
    }
    owners' := owners.Adopt(key, existing);
    DenotesAfterMerge(cells, owners, flat, key, m);
  }

  /** A new entry is a shallow copy of the record; an entry merged into keeps its common data if it had any. */
  ghost predicate StoredOrKept(was: map<Bytes, PlatformMetric>, now: map<Bytes, PlatformMetric>, key: Bytes, metric: PlatformMetric) {
    && key in now
    && (key !in was ==> now[key] == metric)
    && (key in was && was[key].common != null ==> now[key].common == was[key].common)
  }

  lemma UnownedNotShared(owners: Owners, key: Bytes, m: PlatformMetric)
    requires owners.OwnsSubs(key, m)
    ensures forall n: PlatformMetric :: allocated(n) && Unowned(owners, n) ==> NoneShared(m, n)
  {
  }

  method MergeEntry(ghost table: ShardedMap<PlatformMetric>, ghost owners: Owners, ghost flat: map<Bytes, PlatformRecord>,
                    ghost key: Bytes, existing: Cell<PlatformMetric>, metric: PlatformMetric) returns (ghost owners': Owners)
    requires table.Valid() && Denotes(table.Cells, owners, flat) && key in table.Cells && existing == table.Cells[key]
    modifies existing, existing.m.common, existing.m.cpu, existing.m.mem
    ensures table.Valid() && Denotes(table.Cells, owners', AbsorbAt(flat, key, old(View(metric))))
    ensures Grown(owners, owners', {})
    ensures forall n: PlatformMetric :: old(allocated(n)) && Unowned(owners, n) ==> View(n) == old(View(n))
    ensures StoredOrKept(old(table.Contents()), table.Contents(), key, metric)
  {
    UnownedNotShared(owners, key, existing.m);
    owners' := MergeInPlace(table, owners, flat, key, existing, metric);
  }

  /** No entry points to a sub-structure of `m`. */
  ghost predicate Unowned(owners: Owners, m: PlatformMetric) {
    && m.common !in owners.common && m.cpu !in owners.cpu && m.mem !in owners.mem
  }

  /** Inserting a copy of a struct whose sub-structures no entry points to. */
  lemma DenotesAfterInsert(cells: Cells, owners: Owners, flat: map<Bytes, PlatformRecord>, key: Bytes, cell: Cell<PlatformMetric>)
    requires Denotes(cells, owners, flat) && key !in cells && cell !in owners.cells && Unowned(owners, cell.m)
    ensures Denotes(cells[key := cell], owners.Adopt(key, cell), flat[key := View(cell.m)])
  {
    assert cells[key := cell].Keys == cells.Keys + {key};
    forall l | l in cells
      ensures owners.Adopt(key, cell).Owns(l, cells[l])
    {
    }
  }

  lemma AbsorbPlatform(buffer: map<Bytes, PlatformRecord>, parts: KeyPool.KeyParts, r: PlatformRecord)
    requires parts == KeyPool.PlatformParts(r.timestamp, r.systemID, r.componentName)
    ensures parts.Key() == PLATFORM.key(r) && Absorb(PLATFORM, buffer, r) == AbsorbAt(buffer, parts.Key(), r)
  {
  }

  /** Set, with its frame: the entries there were keep what they denote. */
  method SetFramed(table: ShardedMap<PlatformMetric>, ghost owners: Owners, ghost flat: map<Bytes, PlatformRecord>,
                   key: Bytes, cell: Cell<PlatformMetric>)
    requires table.Valid() && Denotes(table.Cells, owners, flat) && cell !in table.Cells.Values
    modifies table`Cells, table.shards
    ensures table.Valid() && table.Cells == old(table.Cells)[key := cell]
    ensures Denotes(old(table.Cells), owners, flat)
    ensures forall n: PlatformMetric :: old(allocated(n)) ==> View(n) == old(View(n))
  {
    table.Set(key, cell);
  }

  /** Stores a copy of a struct under a new key. */
  method StoreCopy(table: ShardedMap<PlatformMetric>, ghost owners: Owners, ghost flat: map<Bytes, PlatformRecord>,
                   key: Bytes, metric: PlatformMetric) returns (ghost owners': Owners)
    requires table.Valid() && Denotes(table.Cells, owners, flat) && key !in table.Cells && Unowned(owners, metric)
    modifies table`Cells, table.shards
    ensures table.Valid()
    ensures Denotes(table.Cells, owners', flat[key := View(metric)])
    ensures key in table.Cells && table.Cells[key].m == metric && fresh(table.Cells[key])
    ensures owners' == owners.Adopt(key, table.Cells[key])
    ensures forall n: PlatformMetric :: old(allocated(n)) ==> View(n) == old(View(n))
  {
    ghost var cells := table.Cells;
    var copy := new Cell(metric);
    SetFramed(table, owners, flat, key, copy);
    owners' := owners.Adopt(key, copy);
    DenotesAfterInsert(cells, owners, flat, key, copy);
  }

  method InsertEntry(table: ShardedMap<PlatformMetric>, ghost owners: Owners, ghost flat: map<Bytes, PlatformRecord>,
                     key: Bytes, metric: PlatformMetric) returns (ghost owners': Owners)
    requires table.Valid() && Denotes(table.Cells, owners, flat) && key !in table.Cells && Unowned(owners, metric)
    modifies table`Cells, table.shards
    ensures table.Valid()
    ensures Denotes(table.Cells, owners', AbsorbAt(flat, key, old(View(metric))))
    ensures Grown(owners, owners', Subs(metric))
    ensures forall n: PlatformMetric :: old(allocated(n)) && Unowned(owners, n) ==> View(n) == old(View(n))
    ensures StoredOrKept(old(table.Contents()), table.Contents(), key, metric)
  {
    owners' := StoreCopy(table, owners, flat, key, metric);
  }

  /** The critical section of one record: merge into the entry of its key, or insert a copy. */
  method AddKeyed(table: ShardedMap<PlatformMetric>, ghost owners: Owners, ghost flat: map<Bytes, PlatformRecord>,
                  key: Bytes, metric: PlatformMetric) returns (collided: bool, ghost owners': Owners)
    requires table.Valid() && Denotes(table.Cells, owners, flat) && Unowned(owners, metric)
    modifies table`Cells, table.shards, owners.cells.Keys, owners.common.Keys, owners.cpu.Keys, owners.mem.Keys
    ensures table.Valid() && Denotes(table.Cells, owners', AbsorbAt(flat, key, old(View(metric))))
    ensures collided <==> key in flat
    ensures Grown(owners, owners', Subs(metric))
    ensures StoredOrKept(old(table.Contents()), table.Contents(), key, metric)
    ensures forall n: PlatformMetric :: old(allocated(n)) && Unowned(owners, n) ==> View(n) == old(View(n))
  {
    var shard := table.GetShard(key);
    collided := key in shard.items;
    assert shard.items == Slice(table.Cells, table.shardOf, table.shardOf(key));
    if collided {
      owners' := MergeEntry(table, owners, flat, key, shard.items[key], metric);
      return;
    }
    owners' := InsertEntry(table, owners, flat, key, metric);
  }

  /** Building a key in the shared pool leaves the buffer as it was. */
  method KeyBesideBuffer(pool: KeyPool.Pool, ghost table: ShardedMap<PlatformMetric>, ghost owners: Owners, ghost flat: map<Bytes, PlatformRecord>,
                         parts: KeyPool.KeyParts) returns (key: Bytes)
    requires pool.Valid() && table.Valid() && Denotes(table.Cells, owners, flat)
    modifies pool, pool.Buffers, pool.Stores
    ensures pool.Valid() && pool.Grew()
    ensures key == parts.Key()
    ensures table.Valid()
    ensures Denotes(table.Cells, owners, flat)
    ensures forall n: PlatformMetric :: old(allocated(n)) ==> View(n) == old(View(n))
  {
    key := pool.GenerateKey(parts);
  }

  /** What belongs to the shared pool of key buffers belongs to no entry. */
  lemma PoolApart(o: object, owners: Owners, shards: seq<Shard<PlatformMetric>>)
    requires o is KeyPool.Pool || o is KeyPool.KeyBuffer || o is array<bv8>
    ensures o !in shards && o !in owners.cells.Keys && o !in owners.common.Keys && o !in owners.cpu.Keys && o !in owners.mem.Keys
  {
  }

  /** AddKeyed, with its frame on the side of the shared pool. */
  method AddKeyedFramed(ghost pool: KeyPool.Pool, table: ShardedMap<PlatformMetric>, ghost owners: Owners, ghost flat: map<Bytes, PlatformRecord>,
                        key: Bytes, metric: PlatformMetric) returns (collided: bool, ghost owners': Owners)
    requires table.Valid() && Denotes(table.Cells, owners, flat) && Unowned(owners, metric)
    modifies table`Cells, table.shards, owners.cells.Keys, owners.common.Keys, owners.cpu.Keys, owners.mem.Keys
    ensures pool.Untouched()
    ensures table.Valid() && Denotes(table.Cells, owners', AbsorbAt(flat, key, old(View(metric))))
    ensures collided <==> key in flat
    ensures Grown(owners, owners', Subs(metric))
    ensures forall n: PlatformMetric :: old(allocated(n)) && Unowned(owners, n) ==> View(n) == old(View(n))
  {
    PoolApart(pool, owners, table.shards);
    forall b | b in pool.Buffers
      ensures b !in owners.cells.Keys && b !in owners.common.Keys && b !in owners.cpu.Keys && b !in owners.mem.Keys && b !in table.shards
    {
      PoolApart(b, owners, table.shards);
    }
    collided, owners' := AddKeyed(table, owners, flat, key, metric);
  }

  /** Buffering a record leaves the shared pool as it was. */
  method AddBesidePool(ghost pool: KeyPool.Pool, table: ShardedMap<PlatformMetric>, ghost owners: Owners, ghost flat: map<Bytes, PlatformRecord>,
                       key: Bytes, metric: PlatformMetric) returns (collided: bool, ghost owners': Owners)
    requires pool.Valid() && table.Valid() && Denotes(table.Cells, owners, flat) && Unowned(owners, metric)
    modifies table`Cells, table.shards, owners.cells.Keys, owners.common.Keys, owners.cpu.Keys, owners.mem.Keys
    ensures pool.Valid() && pool.Buffers == old(pool.Buffers) && pool.Stores == old(pool.Stores)
    ensures table.Valid() && Denotes(table.Cells, owners', AbsorbAt(flat, key, old(View(metric))))
    ensures collided <==> key in flat
    ensures Grown(owners, owners', Subs(metric))
    ensures forall n: PlatformMetric :: old(allocated(n)) && Unowned(owners, n) ==> View(n) == old(View(n))
  {
    collided, owners' := AddKeyedFramed(pool, table, owners, flat, key, metric);
  }

  function PartsOf(metric: PlatformMetric): KeyPool.KeyParts {
    KeyPool.PlatformParts(metric.timestamp, metric.systemID, metric.componentName)
  }

  /** The loop body of an Add call: build the key in the shared pool, then merge or insert under it. */
  method AddOne(pool: KeyPool.Pool, table: ShardedMap<PlatformMetric>, ghost owners: Owners, ghost flat: map<Bytes, PlatformRecord>,
                metric: PlatformMetric) returns (collided: bool, ghost owners': Owners)
    requires pool.Valid() && table.Valid() && Denotes(table.Cells, owners, flat) && Unowned(owners, metric)
    modifies pool, pool.Buffers, pool.Stores
    modifies table`Cells, table.shards, owners.cells.Keys, owners.common.Keys, owners.cpu.Keys, owners.mem.Keys
    ensures pool.Valid() && pool.Grew()
    ensures table.Valid() && Denotes(table.Cells, owners', AbsorbAt(flat, PartsOf(metric).Key(), old(View(metric))))
    ensures collided <==> PartsOf(metric).Key() in flat
    ensures Grown(owners, owners', Subs(metric))
    ensures forall n: PlatformMetric :: old(allocated(n)) && Unowned(owners, n) ==> View(n) == old(View(n))
  {
    var key := KeyBesideBuffer(pool, table, owners, flat, PartsOf(metric));
    collided, owners' := AddBesidePool(pool, table, owners, flat, key, metric);
  }
}
