/** The buffered records and their merges, with the meaning of merging a run of same-key records.
    Fields that no merge touches are kept together as a map from field name to set value. */
module Metrics {
  import opened Sequences
  import opened Keys
  import opened FlatBuffer

  type Unmerged = map<string, string>

  datatype CommonState = CommonState(operStatus: Option<string>, uptime: Option<string>,
                                     usedPower: Option<nat>, allocatedPower: Option<nat>, others: Unmerged)
  /** CPU and memory data: only the alarm status is ever merged. */
  datatype AlarmGroup = AlarmGroup(alarmStatus: Option<string>, others: Unmerged)

  const FRESH_COMMON := CommonState(None, None, None, None, map[])
  const FRESH_GROUP := AlarmGroup(None, map[])

  datatype PlatformRecord = PlatformRecord(timestamp: int, systemID: Bytes, componentName: Bytes,
                                           common: Option<CommonState>, cpu: Option<AlarmGroup>, mem: Option<AlarmGroup>,
                                           others: Unmerged)

  datatype InterfaceRecord = InterfaceRecord(timestamp: int, systemID: Bytes, interfaceName: Bytes,
                                             adminStatus: Option<string>, operStatus: Option<string>, phyStatus: Option<string>,
                                             inOctets: Option<nat>, outOctets: Option<nat>, others: Unmerged)

  datatype SubinterfaceRecord = SubinterfaceRecord(timestamp: int, systemID: Bytes, interfaceName: Bytes, subinterfaceName: Bytes,
                                                   adminStatus: Option<string>, operStatus: Option<string>,
                                                   inOctets: Option<nat>, outOctets: Option<nat>, others: Unmerged)

  /** Alarm and notification reports: the three key fields and the rest. */
  datatype ReportRecord = ReportRecord(systemID: Bytes, flowID: nat, stamp: nat, others: Unmerged)

  function Later<T>(was: Option<T>, now: Option<T>): Option<T> { if now.Some? then now else was }

  function MaxTime(was: int, now: int): int { if now > was then now else was }

  function MergeCommon(was: Option<CommonState>, now: Option<CommonState>): Option<CommonState> {
    match now
    case None => was
    case Some(n) =>
      var o := was.GetOr(FRESH_COMMON);
      Some(CommonState(Later(o.operStatus, n.operStatus), Later(o.uptime, n.uptime),
                       Later(o.usedPower, n.usedPower), Later(o.allocatedPower, n.allocatedPower), o.others))
  }

  function MergeGroup(was: Option<AlarmGroup>, now: Option<AlarmGroup>): Option<AlarmGroup> {
    if now.Some? && now.value.alarmStatus.Some? then
      Some(was.GetOr(FRESH_GROUP).(alarmStatus := now.value.alarmStatus))
    else was
  }

  function MergePlatform(was: PlatformRecord, now: PlatformRecord): PlatformRecord {
    was.(common := MergeCommon(was.common, now.common),
         mem := MergeGroup(was.mem, now.mem),
         cpu := MergeGroup(was.cpu, now.cpu),
         timestamp := MaxTime(was.timestamp, now.timestamp))
  }

  function MergeInterface(was: InterfaceRecord, now: InterfaceRecord): InterfaceRecord {
    was.(adminStatus := Later(was.adminStatus, now.adminStatus), operStatus := Later(was.operStatus, now.operStatus),
         phyStatus := Later(was.phyStatus, now.phyStatus), inOctets := Later(was.inOctets, now.inOctets),
         outOctets := Later(was.outOctets, now.outOctets), timestamp := MaxTime(was.timestamp, now.timestamp))
  }

  function MergeSubinterface(was: SubinterfaceRecord, now: SubinterfaceRecord): SubinterfaceRecord {
    was.(adminStatus := Later(was.adminStatus, now.adminStatus), operStatus := Later(was.operStatus, now.operStatus),
         inOctets := Later(was.inOctets, now.inOctets), outOctets := Later(was.outOctets, now.outOctets),
         timestamp := MaxTime(was.timestamp, now.timestamp))
  }

  function KeyOfPlatform(m: PlatformRecord): Bytes {
    PlatformKey(UnixSeconds(m.timestamp), m.systemID, m.componentName)
  }

  function KeyOfInterface(m: InterfaceRecord): Bytes {
    PlatformKey(UnixSeconds(m.timestamp), m.systemID, m.interfaceName)
  }

  function KeyOfSubinterface(m: SubinterfaceRecord): Bytes {
    SubinterfaceKey(UnixSeconds(m.timestamp), m.systemID, m.interfaceName, m.subinterfaceName)
  }

  function KeyOfReport(m: ReportRecord): Bytes { AlarmKey(m.systemID, m.flowID, m.stamp) }

  const PLATFORM: Table<PlatformRecord> := Table(KeyOfPlatform, MergePlatform, false)
  const INTERFACE: Table<InterfaceRecord> := Table(KeyOfInterface, MergeInterface, false)
  const SUBINTERFACE: Table<SubinterfaceRecord> := Table(KeyOfSubinterface, MergeSubinterface, false)
  const REPORT: Table<ReportRecord> := Table(KeyOfReport, (was: ReportRecord, now: ReportRecord) => now, true)

  lemma SameSecondKept(a: int, b: int)
    requires UnixSeconds(a) == UnixSeconds(b)
    ensures UnixSeconds(MaxTime(a, b)) == UnixSeconds(a)
  {
  }

  /** Entry-key invariant: a merge may advance the timestamp, but never out of the entry's second. */
  lemma PlatformLaws()
    ensures KeyStable(PLATFORM) && Associative(PLATFORM) && Idempotent(PLATFORM)
  {
    forall a, b | PLATFORM.key(a) == PLATFORM.key(b)
      ensures PLATFORM.key(PLATFORM.merge(a, b)) == PLATFORM.key(a)
    {
      PlatformKeyCollision(UnixSeconds(a.timestamp), a.systemID, a.componentName,
                           UnixSeconds(b.timestamp), b.systemID, b.componentName);
      SameSecondKept(a.timestamp, b.timestamp);
    }
    forall a, b, c
      ensures PLATFORM.merge(PLATFORM.merge(a, b), c) == PLATFORM.merge(a, PLATFORM.merge(b, c))
    {
      MergeCommonAssociative(a.common, b.common, c.common);
      MergeGroupAssociative(a.mem, b.mem, c.mem);
      MergeGroupAssociative(a.cpu, b.cpu, c.cpu);
    }
  }

  lemma MergeCommonAssociative(a: Option<CommonState>, b: Option<CommonState>, c: Option<CommonState>)
    ensures MergeCommon(MergeCommon(a, b), c) == MergeCommon(a, MergeCommon(b, c))
  {
  }

  lemma MergeGroupAssociative(a: Option<AlarmGroup>, b: Option<AlarmGroup>, c: Option<AlarmGroup>)
    ensures MergeGroup(MergeGroup(a, b), c) == MergeGroup(a, MergeGroup(b, c))
  {
  }

  lemma InterfaceLaws()
    ensures KeyStable(INTERFACE) && Associative(INTERFACE) && Idempotent(INTERFACE)
  {
    forall a, b | INTERFACE.key(a) == INTERFACE.key(b)
      ensures INTERFACE.key(INTERFACE.merge(a, b)) == INTERFACE.key(a)
    {
      PlatformKeyCollision(UnixSeconds(a.timestamp), a.systemID, a.interfaceName,
                           UnixSeconds(b.timestamp), b.systemID, b.interfaceName);
      SameSecondKept(a.timestamp, b.timestamp);
    }
  }

  lemma SubinterfaceLaws()
    ensures KeyStable(SUBINTERFACE) && Associative(SUBINTERFACE) && Idempotent(SUBINTERFACE)
  {
    forall a, b | SUBINTERFACE.key(a) == SUBINTERFACE.key(b)
      ensures SUBINTERFACE.key(SUBINTERFACE.merge(a, b)) == SUBINTERFACE.key(a)
    {
      SubinterfaceKeySplit(UnixSeconds(a.timestamp), a.systemID, a.interfaceName, a.subinterfaceName);
      SubinterfaceKeySplit(UnixSeconds(b.timestamp), b.systemID, b.interfaceName, b.subinterfaceName);
      PlatformKeyCollision(UnixSeconds(a.timestamp), a.systemID, a.interfaceName + [UNDERSCORE] + a.subinterfaceName,
                           UnixSeconds(b.timestamp), b.systemID, b.interfaceName + [UNDERSCORE] + b.subinterfaceName);
      SameSecondKept(a.timestamp, b.timestamp);
    }
  }

  lemma ReportLaws()
    ensures KeyStable(REPORT) && Associative(REPORT) && Overwrites(REPORT)
  {
  }

  /** `r` is the last set value of field `f` along `rs`, or unset when no record sets it. */
  ghost predicate IsLastSet<R, T>(rs: seq<R>, f: R -> Option<T>, r: Option<T>) {
    match r
    case None => forall i :: 0 <= i < |rs| ==> f(rs[i]).None?
    case Some(v) => exists i :: 0 <= i < |rs| && f(rs[i]) == r && forall j :: i < j < |rs| ==> f(rs[j]).None?
  }

  ghost predicate IsLatestTime<R>(rs: seq<R>, f: R -> int, t: int) {
    && (exists i :: 0 <= i < |rs| && f(rs[i]) == t)
    && (forall i :: 0 <= i < |rs| ==> f(rs[i]) <= t)
  }

  lemma LastSetAppend<R, T>(rs: seq<R>, x: R, f: R -> Option<T>, r: Option<T>)
    requires IsLastSet(rs, f, r)
    ensures IsLastSet(rs + [x], f, Later(r, f(x)))
  {
    var s := rs + [x];
    if f(x).Some? {
      assert f(s[|rs|]) == f(x);
    } else if r.Some? {
      var i :| 0 <= i < |rs| && f(rs[i]) == r && forall j :: i < j < |rs| ==> f(rs[j]).None?;
      assert f(s[i]) == r;
    }
  }

  lemma LastSetSingle<R, T>(x: R, f: R -> Option<T>)
    ensures IsLastSet([x], f, f(x))
  {
    assert [x][0] == x;
  }

  lemma LatestTimeAppend<R>(rs: seq<R>, x: R, f: R -> int, t: int)
    requires IsLatestTime(rs, f, t)
    ensures IsLatestTime(rs + [x], f, MaxTime(t, f(x)))
  {
    var s := rs + [x];
    var i :| 0 <= i < |rs| && f(rs[i]) == t;
    assert f(s[i]) == t && f(s[|rs|]) == f(x);
  }

  /** A merge overwrites field `f` when the newer record sets it. */
  ghost predicate MergesLater<R(!new), T>(merge: (R, R) -> R, f: R -> Option<T>) {
    forall a, b :: f(merge(a, b)) == Later(f(a), f(b))
  }

  lemma {:induction false} FoldLastSet<R(!new), T>(merge: (R, R) -> R, f: R -> Option<T>, rs: seq<R>)
    requires rs != [] && MergesLater(merge, f)
    ensures Fold(merge, rs).Some? && IsLastSet(rs, f, f(Fold(merge, rs).value))
  {
    var init, x := rs[..|rs| - 1], rs[|rs| - 1];
    assert rs == init + [x];
    if init == [] {
      FoldSingle(merge, x);
      LastSetSingle(x, f);
      assert rs == [x];
    } else {
      FoldLastSet(merge, f, init);
      LastSetAppend(init, x, f, f(Fold(merge, init).value));
    }
  }

  lemma {:induction false} FoldLatest<R(!new)>(merge: (R, R) -> R, time: R -> int, rs: seq<R>)
    requires rs != [] && forall a, b :: time(merge(a, b)) == MaxTime(time(a), time(b))
    ensures Fold(merge, rs).Some? && IsLatestTime(rs, time, time(Fold(merge, rs).value))
  {
    var init, x := rs[..|rs| - 1], rs[|rs| - 1];
    assert rs == init + [x];
    if init == [] {
      FoldSingle(merge, x);
      assert rs == [x] && time(rs[0]) == time(x);
    } else {
      FoldLatest(merge, time, init);
      LatestTimeAppend(init, x, time, time(Fold(merge, init).value));
    }
  }

  lemma {:induction false} FoldKeepsFirst<R(!new), T>(merge: (R, R) -> R, g: R -> T, rs: seq<R>)
    requires rs != [] && forall a, b :: g(merge(a, b)) == g(a)
    ensures Fold(merge, rs).Some? && g(Fold(merge, rs).value) == g(rs[0])
  {
    var init, x := rs[..|rs| - 1], rs[|rs| - 1];
    if init == [] {
      FoldSingle(merge, x);
      assert rs == [x];
    } else {
      FoldKeepsFirst(merge, g, init);
    }
  }

  function OperStatusOf(m: PlatformRecord): Option<string> { if m.common.Some? then m.common.value.operStatus else None }
  function UptimeOf(m: PlatformRecord): Option<string> { if m.common.Some? then m.common.value.uptime else None }
  function UsedPowerOf(m: PlatformRecord): Option<nat> { if m.common.Some? then m.common.value.usedPower else None }
  function AllocatedPowerOf(m: PlatformRecord): Option<nat> { if m.common.Some? then m.common.value.allocatedPower else None }
  function MemAlarmOf(m: PlatformRecord): Option<string> { if m.mem.Some? then m.mem.value.alarmStatus else None }
  function CpuAlarmOf(m: PlatformRecord): Option<string> { if m.cpu.Some? then m.cpu.value.alarmStatus else None }
  function TimeOf(m: PlatformRecord): int { m.timestamp }

  /** The merged fields of `v`: last set value in arrival order, and the greatest timestamp. */
  ghost predicate MergedFieldsOf(rs: seq<PlatformRecord>, v: PlatformRecord) {
    && IsLastSet(rs, OperStatusOf, OperStatusOf(v)) && IsLastSet(rs, UptimeOf, UptimeOf(v))
    && IsLastSet(rs, UsedPowerOf, UsedPowerOf(v)) && IsLastSet(rs, AllocatedPowerOf, AllocatedPowerOf(v))
    && IsLastSet(rs, MemAlarmOf, MemAlarmOf(v)) && IsLastSet(rs, CpuAlarmOf, CpuAlarmOf(v))
    && IsLatestTime(rs, TimeOf, v.timestamp)
  }

  /** The unmerged fields of `v`: the first record's values, unset inside a sub-structure created by a merge. */
  ghost predicate UnmergedFieldsOf(rs: seq<PlatformRecord>, v: PlatformRecord)
    requires rs != []
  {
    && v.systemID == rs[0].systemID && v.componentName == rs[0].componentName && v.others == rs[0].others
    && (v.common.None? <==> forall i :: 0 <= i < |rs| ==> rs[i].common.None?)
    && (v.common.Some? ==> v.common.value.others == (if rs[0].common.Some? then rs[0].common.value.others else map[]))
    && (v.mem.None? <==> rs[0].mem.None? && forall i :: 0 <= i < |rs| ==> MemAlarmOf(rs[i]).None?)
    && (v.mem.Some? ==> v.mem.value.others == (if rs[0].mem.Some? then rs[0].mem.value.others else map[]))
    && (v.cpu.None? <==> rs[0].cpu.None? && forall i :: 0 <= i < |rs| ==> CpuAlarmOf(rs[i]).None?)
    && (v.cpu.Some? ==> v.cpu.value.others == (if rs[0].cpu.Some? then rs[0].cpu.value.others else map[]))
  }

  lemma CommonMergesLater(a: PlatformRecord, b: PlatformRecord)
    ensures OperStatusOf(MergePlatform(a, b)) == Later(OperStatusOf(a), OperStatusOf(b))
    ensures UptimeOf(MergePlatform(a, b)) == Later(UptimeOf(a), UptimeOf(b))
    ensures UsedPowerOf(MergePlatform(a, b)) == Later(UsedPowerOf(a), UsedPowerOf(b))
    ensures AllocatedPowerOf(MergePlatform(a, b)) == Later(AllocatedPowerOf(a), AllocatedPowerOf(b))
  {
  }

  lemma GroupsMergeLater(a: PlatformRecord, b: PlatformRecord)
    ensures MemAlarmOf(MergePlatform(a, b)) == Later(MemAlarmOf(a), MemAlarmOf(b))
    ensures CpuAlarmOf(MergePlatform(a, b)) == Later(CpuAlarmOf(a), CpuAlarmOf(b))
  {
  }

  lemma CommonFieldsMergeLater()
    ensures MergesLater(MergePlatform, OperStatusOf) && MergesLater(MergePlatform, UptimeOf)
    ensures MergesLater(MergePlatform, UsedPowerOf) && MergesLater(MergePlatform, AllocatedPowerOf)
  {
    forall a, b
      ensures OperStatusOf(MergePlatform(a, b)) == Later(OperStatusOf(a), OperStatusOf(b))
      ensures UptimeOf(MergePlatform(a, b)) == Later(UptimeOf(a), UptimeOf(b))
      ensures UsedPowerOf(MergePlatform(a, b)) == Later(UsedPowerOf(a), UsedPowerOf(b))
      ensures AllocatedPowerOf(MergePlatform(a, b)) == Later(AllocatedPowerOf(a), AllocatedPowerOf(b))
    {
      CommonMergesLater(a, b);
    }
  }

  lemma GroupFieldsMergeLater()
    ensures MergesLater(MergePlatform, MemAlarmOf) && MergesLater(MergePlatform, CpuAlarmOf)
  {
    forall a, b
      ensures MemAlarmOf(MergePlatform(a, b)) == Later(MemAlarmOf(a), MemAlarmOf(b))
      ensures CpuAlarmOf(MergePlatform(a, b)) == Later(CpuAlarmOf(a), CpuAlarmOf(b))
    {
      GroupsMergeLater(a, b);
    }
  }

  lemma PlatformMerged(rs: seq<PlatformRecord>)
    requires rs != []
    ensures Fold(MergePlatform, rs).Some? && MergedFieldsOf(rs, Fold(MergePlatform, rs).value)
  {
    CommonFieldsMergeLater();
    GroupFieldsMergeLater();
    FoldLastSet(MergePlatform, OperStatusOf, rs);
    FoldLastSet(MergePlatform, UptimeOf, rs);
    FoldLastSet(MergePlatform, UsedPowerOf, rs);
    FoldLastSet(MergePlatform, AllocatedPowerOf, rs);
    FoldLastSet(MergePlatform, MemAlarmOf, rs);
    FoldLastSet(MergePlatform, CpuAlarmOf, rs);
    FoldLatest(MergePlatform, TimeOf, rs);
  }

  /** Merge fold specification: what folding any run of same-key platform records yields, field by field. */
  lemma PlatformFoldMeaning(rs: seq<PlatformRecord>)
    requires rs != []
    ensures Fold(MergePlatform, rs).Some?
    ensures MergedFieldsOf(rs, Fold(MergePlatform, rs).value)
    ensures UnmergedFieldsOf(rs, Fold(MergePlatform, rs).value)
  {
    PlatformMerged(rs);
    PlatformUnmerged(rs);
  }

  lemma {:induction false} PlatformUnmerged(rs: seq<PlatformRecord>)
    requires rs != []
    ensures Fold(MergePlatform, rs).Some? && UnmergedFieldsOf(rs, Fold(MergePlatform, rs).value)
  {
    var init, x := rs[..|rs| - 1], rs[|rs| - 1];
    assert rs == init + [x];
    if init == [] {
      assert rs == [x] && [x][0] == x;
      FoldSingle(MergePlatform, x);
    } else {
      PlatformUnmerged(init);
      var o := Fold(MergePlatform, init).value;
      assert Fold(MergePlatform, rs) == Some(MergePlatform(o, x));
      AppendUnmergedFields(init, x, o);
    }
  }

  lemma AppendUnmergedFields(rs: seq<PlatformRecord>, x: PlatformRecord, o: PlatformRecord)
    requires rs != [] && UnmergedFieldsOf(rs, o)
    ensures UnmergedFieldsOf(rs + [x], MergePlatform(o, x))
  {
    var s := rs + [x];
    assert s[0] == rs[0] && s[|rs|] == x;
    assert forall i :: 0 <= i < |rs| ==> s[i] == rs[i];
  }

  // The records without sub-structures.

  function InterfaceAdmin(m: InterfaceRecord): Option<string> { m.adminStatus }
  function InterfaceOper(m: InterfaceRecord): Option<string> { m.operStatus }
  function InterfacePhy(m: InterfaceRecord): Option<string> { m.phyStatus }
  function InterfaceIn(m: InterfaceRecord): Option<nat> { m.inOctets }
  function InterfaceOut(m: InterfaceRecord): Option<nat> { m.outOctets }
  function InterfaceTime(m: InterfaceRecord): int { m.timestamp }
  function InterfaceFixed(m: InterfaceRecord): (Bytes, Bytes, Unmerged) { (m.systemID, m.interfaceName, m.others) }

  /** The same for interface records. */
  lemma InterfaceFoldMeaning(rs: seq<InterfaceRecord>)
    requires rs != []
    ensures Fold(MergeInterface, rs).Some?
    ensures var v := Fold(MergeInterface, rs).value;
            && IsLastSet(rs, InterfaceAdmin, v.adminStatus) && IsLastSet(rs, InterfaceOper, v.operStatus)
            && IsLastSet(rs, InterfacePhy, v.phyStatus)
            && IsLastSet(rs, InterfaceIn, v.inOctets) && IsLastSet(rs, InterfaceOut, v.outOctets)
            && IsLatestTime(rs, InterfaceTime, v.timestamp) && InterfaceFixed(v) == InterfaceFixed(rs[0])
  {
    FoldLastSet(MergeInterface, InterfaceAdmin, rs);
    FoldLastSet(MergeInterface, InterfaceOper, rs);
    FoldLastSet(MergeInterface, InterfacePhy, rs);
    FoldLastSet(MergeInterface, InterfaceIn, rs);
    FoldLastSet(MergeInterface, InterfaceOut, rs);
    FoldLatest(MergeInterface, InterfaceTime, rs);
    FoldKeepsFirst(MergeInterface, InterfaceFixed, rs);
  }

  function SubinterfaceAdmin(m: SubinterfaceRecord): Option<string> { m.adminStatus }
  function SubinterfaceOper(m: SubinterfaceRecord): Option<string> { m.operStatus }
  function SubinterfaceIn(m: SubinterfaceRecord): Option<nat> { m.inOctets }
  function SubinterfaceOut(m: SubinterfaceRecord): Option<nat> { m.outOctets }
  function SubinterfaceTime(m: SubinterfaceRecord): int { m.timestamp }
  function SubinterfaceFixed(m: SubinterfaceRecord): (Bytes, Bytes, Bytes, Unmerged) {
    (m.systemID, m.interfaceName, m.subinterfaceName, m.others)
  }

  /** The same for subinterface records. */
  lemma SubinterfaceFoldMeaning(rs: seq<SubinterfaceRecord>)
    requires rs != []
    ensures Fold(MergeSubinterface, rs).Some?
    ensures var v := Fold(MergeSubinterface, rs).value;
            && IsLastSet(rs, SubinterfaceAdmin, v.adminStatus) && IsLastSet(rs, SubinterfaceOper, v.operStatus)
            && IsLastSet(rs, SubinterfaceIn, v.inOctets) && IsLastSet(rs, SubinterfaceOut, v.outOctets)
            && IsLatestTime(rs, SubinterfaceTime, v.timestamp) && SubinterfaceFixed(v) == SubinterfaceFixed(rs[0])
  {
    FoldLastSet(MergeSubinterface, SubinterfaceAdmin, rs);
    FoldLastSet(MergeSubinterface, SubinterfaceOper, rs);
    FoldLastSet(MergeSubinterface, SubinterfaceIn, rs);
    FoldLastSet(MergeSubinterface, SubinterfaceOut, rs);
    FoldLatest(MergeSubinterface, SubinterfaceTime, rs);
    FoldKeepsFirst(MergeSubinterface, SubinterfaceFixed, rs);
  }
}
