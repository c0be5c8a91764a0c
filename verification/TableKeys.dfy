/** The aggregation keys of the five tables, for records: what they are made of, and when two records share one. */
module TableKeys {
  import opened Keys
  import opened Decimal
  import opened Metrics
  import opened KeyPool

  /** The keys of the machines are the ones that the pooled builders write. */
  lemma KeysAreBuilt(p: PlatformRecord, i: InterfaceRecord, s: SubinterfaceRecord, r: ReportRecord)
    ensures PLATFORM.key(p) == PlatformParts(p.timestamp, p.systemID, p.componentName).Key()
    ensures INTERFACE.key(i) == PlatformParts(i.timestamp, i.systemID, i.interfaceName).Key()
    ensures SUBINTERFACE.key(s) == SubinterfaceParts(s.timestamp, s.systemID, s.interfaceName, s.subinterfaceName).Key()
    ensures REPORT.key(r) == ReportParts(r.systemID, r.flowID, r.stamp).Key()
  {
  }

  /** Platform records share a key exactly in the same second and with the same joined names. */
  lemma PlatformKeysEqualIff(a: PlatformRecord, b: PlatformRecord)
    ensures PLATFORM.key(a) == PLATFORM.key(b) <==>
            UnixSeconds(a.timestamp) == UnixSeconds(b.timestamp)
            && a.systemID + [UNDERSCORE] + a.componentName == b.systemID + [UNDERSCORE] + b.componentName
  {
    PlatformKeyCollision(UnixSeconds(a.timestamp), a.systemID, a.componentName,
                         UnixSeconds(b.timestamp), b.systemID, b.componentName);
  }

  lemma InterfaceKeysEqualIff(a: InterfaceRecord, b: InterfaceRecord)
    ensures INTERFACE.key(a) == INTERFACE.key(b) <==>
            UnixSeconds(a.timestamp) == UnixSeconds(b.timestamp)
            && a.systemID + [UNDERSCORE] + a.interfaceName == b.systemID + [UNDERSCORE] + b.interfaceName
  {
    PlatformKeyCollision(UnixSeconds(a.timestamp), a.systemID, a.interfaceName,
                         UnixSeconds(b.timestamp), b.systemID, b.interfaceName);
  }

  /** What stands behind the second in a subinterface key. */
  function SubinterfaceTail(m: SubinterfaceRecord): Bytes {
    m.systemID + [UNDERSCORE] + m.interfaceName + [UNDERSCORE] + m.subinterfaceName
  }

  lemma SubinterfaceKeysEqualIff(a: SubinterfaceRecord, b: SubinterfaceRecord)
    ensures SUBINTERFACE.key(a) == SUBINTERFACE.key(b) <==>
            UnixSeconds(a.timestamp) == UnixSeconds(b.timestamp) && SubinterfaceTail(a) == SubinterfaceTail(b)
  {
    var n, n' := a.interfaceName + [UNDERSCORE] + a.subinterfaceName, b.interfaceName + [UNDERSCORE] + b.subinterfaceName;
    SubinterfaceKeySplit(UnixSeconds(a.timestamp), a.systemID, a.interfaceName, a.subinterfaceName);
    SubinterfaceKeySplit(UnixSeconds(b.timestamp), b.systemID, b.interfaceName, b.subinterfaceName);
    PlatformKeyCollision(UnixSeconds(a.timestamp), a.systemID, n, UnixSeconds(b.timestamp), b.systemID, n');
    assert SubinterfaceTail(a) == a.systemID + [UNDERSCORE] + n && SubinterfaceTail(b) == b.systemID + [UNDERSCORE] + n';
  }

  /** Reports share a key exactly when all three fields agree. */
  lemma ReportKeysEqualIff(a: ReportRecord, b: ReportRecord)
    ensures REPORT.key(a) == REPORT.key(b) <==> a.systemID == b.systemID && a.flowID == b.flowID && a.stamp == b.stamp
  {
    AlarmKeyInjective(a.systemID, a.flowID, a.stamp, b.systemID, b.flowID, b.stamp);
  }

  /** The keys of sample records, byte for byte: 1_r1_fan, 1_r1_e1, 1_r1_e1_7 and r1:7:8. A timestamp just
      before 1970 counts as second -1. */
  lemma SampleKeys(p: PlatformRecord, i: InterfaceRecord, s: SubinterfaceRecord, r: ReportRecord)
    requires p.timestamp == i.timestamp == s.timestamp == 1_999_999_999
    requires p.systemID == i.systemID == s.systemID == r.systemID == [114, 49] && p.componentName == [102, 97, 110]
    requires i.interfaceName == s.interfaceName == [101, 49] && s.subinterfaceName == [55] && r.flowID == 7 && r.stamp == 8
    ensures PLATFORM.key(p) == [49, 95, 114, 49, 95, 102, 97, 110]
    ensures INTERFACE.key(i) == [49, 95, 114, 49, 95, 101, 49]
    ensures SUBINTERFACE.key(s) == [49, 95, 114, 49, 95, 101, 49, 95, 55]
    ensures REPORT.key(r) == [114, 49, 58, 55, 58, 56]
    ensures PLATFORM.key(p.(timestamp := -1)) == [45, 49, 95, 114, 49, 95, 102, 97, 110]
  {
    DigitsAreAscii(1);
    DigitsAreAscii(7);
    DigitsAreAscii(8);
    assert UnixSeconds(1_999_999_999) == 1 && UnixSeconds(-1) == -1;
    assert Print(BYTES, 1) == [49] && Print(BYTES, 7) == [55] && Print(BYTES, 8) == [56] && Print(BYTES, -1) == [45, 49];
  }
}
