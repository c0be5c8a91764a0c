/** Which records can end up merged into one row, over all runs. */
module RowMixing {
  import opened Sequences
  import opened Keys
  import opened FlatBuffer
  import opened Metrics
  import opened TableKeys
  import opened ShardedMaps
  import opened Pipeline
  import opened PipelineInputs
  import opened PipelineTheorems

  ghost predicate Unmixed<R>(r: Row<R>, same: (R, R) -> bool) {
    forall i, j :: 0 <= i < j < |r.parts| ==> same(r.parts[i].rec, r.parts[j].rec)
  }

  ghost predicate AcceptedFrom<R(!new)>(s: State<R>, records: iset<R>) {
    forall x :: x in s.accepted ==> x.rec in records
  }

  /** In no state that these records lead to does a row mix different subjects. */
  ghost predicate NeverMixes<R(!new)>(cfg: Config<R>, records: iset<R>, same: (R, R) -> bool)
    requires MasksToShard(cfg.shardOf)
  {
    forall s, r :: Reachable(cfg, s) && AcceptedFrom(s, records) && r in AllRows(s) ==> Unmixed(r, same)
  }

  /** The keys tell different subjects apart. */
  ghost predicate TellsApart<R(!new)>(table: Table<R>, records: iset<R>, same: (R, R) -> bool) {
    forall a, b :: a in records && b in records && table.key(a) == table.key(b) ==> same(a, b)
  }

  lemma ToldApartUnmixed<R(!new)>(cfg: Config<R>, records: iset<R>, same: (R, R) -> bool, s: State<R>, r: Row<R>)
    requires Usable(cfg) && TellsApart(cfg.table, records, same)
    requires Reachable(cfg, s) && AcceptedFrom(s, records) && r in AllRows(s)
    ensures Unmixed(r, same)
  {
    RowsAreFolds(cfg, s);
    assert FoldOfItsInputs(cfg, s, r);
  }

  /** Two records with equal keys share a row in some reachable state. */
  lemma SharedRowReachable<R(!new)>(cfg: Config<R>, a: R, b: R) returns (s: State<R>, r: Row<R>)
    requires Usable(cfg) && cfg.table.key(a) == cfg.table.key(b)
    ensures Reachable(cfg, s) && s.accepted == [Input(0, a), Input(1, b)]
    ensures r in AllRows(s) && r.parts == [Input(0, a), Input(1, b)]
  {
    var k := cfg.table.key(a);
    var s0 := New<R>(0);
    InitOnward(cfg, s0);
    var begun := Take(cfg, s0, s0, BeginAdd([a, b]));
    var one := Take(cfg, s0, begun, Absorb(0));
    s := Take(cfg, s0, one, Absorb(0));
    r := s.shards[cfg.shardOf(k)][k];
    RowBuffered(s.shards, cfg.shardOf(k), k);
  }

  lemma MixedRow<R(!new)>(cfg: Config<R>, records: iset<R>, same: (R, R) -> bool, a: R, b: R)
    requires Usable(cfg) && cfg.table.key(a) == cfg.table.key(b) && !same(a, b)
    requires a in records && b in records
    ensures !NeverMixes(cfg, records, same)
  {
    var s, r := SharedRowReachable(cfg, a, b);
    assert !same(r.parts[0].rec, r.parts[1].rec);
    assert AcceptedFrom(s, records) && r in AllRows(s) && !Unmixed(r, same);
  }

  /** In any table rows never mix subjects, over all runs, if and only if the keys tell the subjects apart. */
  lemma NeverMixesIff<R(!new)>(cfg: Config<R>, records: iset<R>, same: (R, R) -> bool)
    requires Usable(cfg)
    ensures NeverMixes(cfg, records, same) <==> TellsApart(cfg.table, records, same)
  {
    if TellsApart(cfg.table, records, same) {
      forall s, r | Reachable(cfg, s) && AcceptedFrom(s, records) && r in AllRows(s)
        ensures Unmixed(r, same)
      {
        ToldApartUnmixed(cfg, records, same, s, r);
      }
    } else {
      var a, b :| a in records && b in records && cfg.table.key(a) == cfg.table.key(b) && !same(a, b);
      MixedRow(cfg, records, same, a, b);
    }
  }

  // The platform table.

  /** The records are about the same component of the same system in the same second. */
  predicate SameComponent(a: PlatformRecord, b: PlatformRecord) {
    UnixSeconds(a.timestamp) == UnixSeconds(b.timestamp) && a.systemID == b.systemID && a.componentName == b.componentName
  }

  ghost function PlatformsOf(ids: iset<Bytes>): iset<PlatformRecord> { iset m: PlatformRecord | m.systemID in ids }

  function PlatformAt(sec: int, system: Bytes, name: Bytes): PlatformRecord {
    PlatformRecord(sec * NANOS_PER_SECOND, system, name, None, None, None, map[])
  }

  lemma PlatformTellsApart(ids: iset<Bytes>)
    ensures TellsApart(PLATFORM, PlatformsOf(ids), SameComponent) <==> PlatformKeysInjective(ids)
  {
    if TellsApart(PLATFORM, PlatformsOf(ids), SameComponent) {
      forall sec, system, name, sec', system', name' |
        system in ids && system' in ids && PlatformKey(sec, system, name) == PlatformKey(sec', system', name')
        ensures sec == sec' && system == system' && name == name'
      {
        var a, b := PlatformAt(sec, system, name), PlatformAt(sec', system', name');
        assert PLATFORM.key(a) == PLATFORM.key(b) && a in PlatformsOf(ids) && b in PlatformsOf(ids);
        assert SameComponent(a, b);
      }
    }
  }

  /** Exact condition: platform records from a set of systems are never mixed in a row, in any run, if and only
      if no system id followed by an underscore begins another one. */
  lemma PlatformNeverMixesIff(cfg: Config<PlatformRecord>, ids: iset<Bytes>)
    requires Usable(cfg) && cfg.table == PLATFORM
    ensures NeverMixes(cfg, PlatformsOf(ids), SameComponent) <==> PrefixFree(ids)
  {
    PlatformKeysInjectiveIff(ids);
    PlatformTellsApart(ids);
    NeverMixesIff(cfg, PlatformsOf(ids), SameComponent);
  }

  // The interface table.

  predicate SameInterface(a: InterfaceRecord, b: InterfaceRecord) {
    UnixSeconds(a.timestamp) == UnixSeconds(b.timestamp) && a.systemID == b.systemID && a.interfaceName == b.interfaceName
  }

  ghost function InterfacesOf(ids: iset<Bytes>): iset<InterfaceRecord> { iset m: InterfaceRecord | m.systemID in ids }

  function InterfaceAt(sec: int, system: Bytes, name: Bytes): InterfaceRecord {
    InterfaceRecord(sec * NANOS_PER_SECOND, system, name, None, None, None, None, None, map[])
  }

  lemma InterfaceTellsApart(ids: iset<Bytes>)
    ensures TellsApart(INTERFACE, InterfacesOf(ids), SameInterface) <==> PlatformKeysInjective(ids)
  {
    if TellsApart(INTERFACE, InterfacesOf(ids), SameInterface) {
      forall sec, system, name, sec', system', name' |
        system in ids && system' in ids && PlatformKey(sec, system, name) == PlatformKey(sec', system', name')
        ensures sec == sec' && system == system' && name == name'
      {
        var a, b := InterfaceAt(sec, system, name), InterfaceAt(sec', system', name');
        assert INTERFACE.key(a) == INTERFACE.key(b) && a in InterfacesOf(ids) && b in InterfacesOf(ids);
        assert SameInterface(a, b);
      }
    }
  }

  /** The same condition for interface records: two interfaces of one system never share a row. */
  lemma InterfaceNeverMixesIff(cfg: Config<InterfaceRecord>, ids: iset<Bytes>)
    requires Usable(cfg) && cfg.table == INTERFACE
    ensures NeverMixes(cfg, InterfacesOf(ids), SameInterface) <==> PrefixFree(ids)
  {
    PlatformKeysInjectiveIff(ids);
    InterfaceTellsApart(ids);
    NeverMixesIff(cfg, InterfacesOf(ids), SameInterface);
  }

  // The subinterface table.

  predicate SameSubinterface(a: SubinterfaceRecord, b: SubinterfaceRecord) {
    && UnixSeconds(a.timestamp) == UnixSeconds(b.timestamp) && a.systemID == b.systemID
    && a.interfaceName == b.interfaceName && a.subinterfaceName == b.subinterfaceName
  }

  ghost function SubinterfacesOf(ids: iset<Bytes>, subs: iset<Bytes>): iset<SubinterfaceRecord> {
    iset m: SubinterfaceRecord | m.systemID in ids && m.subinterfaceName in subs
  }

  function SubinterfaceAt(sec: int, system: Bytes, name: Bytes, sub: Bytes): SubinterfaceRecord {
    SubinterfaceRecord(sec * NANOS_PER_SECOND, system, name, sub, None, None, None, None, map[])
  }

  lemma SubinterfaceTellsApart(ids: iset<Bytes>, subs: iset<Bytes>)
    ensures TellsApart(SUBINTERFACE, SubinterfacesOf(ids, subs), SameSubinterface) <==> SubinterfaceKeysInjective(ids, subs)
  {
    if TellsApart(SUBINTERFACE, SubinterfacesOf(ids, subs), SameSubinterface) {
      forall sec, system, interface, sub, sec', system', interface', sub' |
        system in ids && system' in ids && sub in subs && sub' in subs
        && SubinterfaceKey(sec, system, interface, sub) == SubinterfaceKey(sec', system', interface', sub')
        ensures sec == sec' && system == system' && interface == interface' && sub == sub'
      {
        var a, b := SubinterfaceAt(sec, system, interface, sub), SubinterfaceAt(sec', system', interface', sub');
        assert SUBINTERFACE.key(a) == SUBINTERFACE.key(b) && a in SubinterfacesOf(ids, subs) && b in SubinterfacesOf(ids, subs);
        assert SameSubinterface(a, b);
      }
    }
  }

  /** Subinterface rows never mix if and only if, besides, no subinterface name after an underscore ends another. */
  lemma SubinterfaceNeverMixesIff(cfg: Config<SubinterfaceRecord>, ids: iset<Bytes>, subs: iset<Bytes>, someId: Bytes, someSub: Bytes)
    requires Usable(cfg) && cfg.table == SUBINTERFACE && someId in ids && someSub in subs
    ensures NeverMixes(cfg, SubinterfacesOf(ids, subs), SameSubinterface) <==> PrefixFree(ids) && SuffixFree(subs)
  {
    SubinterfaceKeysInjectiveIff(ids, subs, someId, someSub);
    SubinterfaceTellsApart(ids, subs);
    NeverMixesIff(cfg, SubinterfacesOf(ids, subs), SameSubinterface);
  }

  // The report tables.

  predicate SameReport(a: ReportRecord, b: ReportRecord) {
    a.systemID == b.systemID && a.flowID == b.flowID && a.stamp == b.stamp
  }

  /** A report only ever replaces reports of the same system, flow and time stamp, whatever reports arrive. */
  lemma ReportsNeverMix(cfg: Config<ReportRecord>, records: iset<ReportRecord>)
    requires Usable(cfg) && cfg.table == REPORT
    ensures NeverMixes(cfg, records, SameReport)
  {
    forall a, b | a in records && b in records && REPORT.key(a) == REPORT.key(b)
      ensures SameReport(a, b)
    {
      ReportKeysEqualIff(a, b);
    }
    NeverMixesIff(cfg, records, SameReport);
  }
}
