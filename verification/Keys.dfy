/** The aggregation keys of the five buffers as byte strings, and exactly when two keys collide. */
module Keys {
  import opened Sequences
  import opened Decimal

  type Bytes = seq<bv8>

  const UNDERSCORE: bv8 := 95
  const COLON: bv8 := 58
  const NANOS_PER_SECOND: int := 1_000_000_000

  /** Unix seconds of an instant given in nanoseconds: rounding is towards minus infinity. */
  function UnixSeconds(nanos: int): int { nanos / NANOS_PER_SECOND }

  /** The second of an instant is the one in which it lies, also before 1970. */
  lemma UnixSecondsFloor(nanos: int, sec: int)
    ensures UnixSeconds(nanos) == sec <==> sec * 1_000_000_000 <= nanos < (sec + 1) * 1_000_000_000
  {
  }

  function PlatformKey(sec: int, system: Bytes, name: Bytes): Bytes {
    Print(BYTES, sec) + [UNDERSCORE] + system + [UNDERSCORE] + name
  }

  function SubinterfaceKey(sec: int, system: Bytes, interface: Bytes, sub: Bytes): Bytes {
    Print(BYTES, sec) + [UNDERSCORE] + system + [UNDERSCORE] + interface + [UNDERSCORE] + sub
  }

  function AlarmKey(system: Bytes, flow: nat, stamp: nat): Bytes {
    system + [COLON] + Print(BYTES, flow) + [COLON] + Print(BYTES, stamp)
  }

  /** The first field is always recoverable: equal keys name the same second and the same tail. */
  lemma PlatformKeyCollision(sec: int, system: Bytes, name: Bytes, sec': int, system': Bytes, name': Bytes)
    ensures PlatformKey(sec, system, name) == PlatformKey(sec', system', name')
       <==> sec == sec' && system + [UNDERSCORE] + name == system' + [UNDERSCORE] + name'
  {
    var t, t' := system + [UNDERSCORE] + name, system' + [UNDERSCORE] + name';
    assert PlatformKey(sec, system, name) == Print(BYTES, sec) + [UNDERSCORE] + t;
    assert PlatformKey(sec', system', name') == Print(BYTES, sec') + [UNDERSCORE] + t';
    if PlatformKey(sec, system, name) == PlatformKey(sec', system', name') {
      SplitFirst(Print(BYTES, sec), t, Print(BYTES, sec'), t', UNDERSCORE);
    }
    PrintInjective(BYTES, sec, sec');
  }

  /** No identifier of `ids`, followed by an underscore, begins another one. */
  ghost predicate PrefixFree(ids: iset<Bytes>) {
    forall s, t :: s in ids && t in ids ==> !(s + [UNDERSCORE] <= t)
  }

  /** No identifier of `ids`, preceded by an underscore, ends another one. */
  ghost predicate SuffixFree(ids: iset<Bytes>) {
    forall s, t :: s in ids && t in ids ==> !EndsWith(t, [UNDERSCORE] + s)
  }

  predicate EndsWith(t: Bytes, s: Bytes) {
    |s| <= |t| && t[|t| - |s|..] == s
  }

  /** Platform and interface keys tell all records apart when the system ids come from `ids`. */
  ghost predicate PlatformKeysInjective(ids: iset<Bytes>) {
    forall sec, system, name, sec', system', name' ::
      system in ids && system' in ids && PlatformKey(sec, system, name) == PlatformKey(sec', system', name')
      ==> sec == sec' && system == system' && name == name'
  }

  lemma ShorterFieldIsPrefix(s: Bytes, u: Bytes, s': Bytes, u': Bytes)
    requires s + [UNDERSCORE] + u == s' + [UNDERSCORE] + u'
    ensures |s| < |s'| ==> s + [UNDERSCORE] <= s'
    ensures |s| == |s'| ==> s == s' && u == u'
  {
    var t := s + [UNDERSCORE] + u;
    assert s == t[..|s|] && s' == t[..|s'|];
    assert s + [UNDERSCORE] == t[..|s| + 1];
    assert u == t[|s| + 1..] && u' == t[|s'| + 1..];
  }

  lemma PrefixDecides(ids: iset<Bytes>, s: Bytes, u: Bytes, s': Bytes, u': Bytes)
    requires PrefixFree(ids) && s in ids && s' in ids
    requires s + [UNDERSCORE] + u == s' + [UNDERSCORE] + u'
    ensures s == s' && u == u'
  {
    ShorterFieldIsPrefix(s, u, s', u');
    ShorterFieldIsPrefix(s', u', s, u);
  }

  /** Exact condition: over a set of system ids the keys are injective iff the set is prefix free. */
  lemma PlatformKeysInjectiveIff(ids: iset<Bytes>)
    ensures PlatformKeysInjective(ids) <==> PrefixFree(ids)
  {
    if PrefixFree(ids) {
      forall sec, system, name, sec', system', name' |
        system in ids && system' in ids && PlatformKey(sec, system, name) == PlatformKey(sec', system', name')
        ensures sec == sec' && system == system' && name == name'
      {
        PlatformKeyCollision(sec, system, name, sec', system', name');
        PrefixDecides(ids, system, name, system', name');
      }
    } else {
      var s, t :| s in ids && t in ids && s + [UNDERSCORE] <= t;
      var rest := t[|s| + 1..];
      assert t == s + [UNDERSCORE] + rest;
      assert s + [UNDERSCORE] + (rest + [UNDERSCORE]) == t + [UNDERSCORE] + [];
      PlatformKeyCollision(0, s, rest + [UNDERSCORE], 0, t, []);
      assert PlatformKey(0, s, rest + [UNDERSCORE]) == PlatformKey(0, t, []);
      assert s != t;
    }
  }

  lemma UnderscoreInside(s: Bytes, t: Bytes)
    ensures s + [UNDERSCORE] <= t || EndsWith(t, [UNDERSCORE] + s) ==> UNDERSCORE in t
  {
    if s + [UNDERSCORE] <= t {
      assert t[|s|] == (s + [UNDERSCORE])[|s|];
    } else if EndsWith(t, [UNDERSCORE] + s) {
      assert t[|t| - |s| - 1..][0] == UNDERSCORE;
    }
  }

  /** Identifiers without an underscore are a prefix-free set, so their keys never collide. */
  lemma PlainIdsPrefixFree(ids: iset<Bytes>)
    requires forall s :: s in ids ==> UNDERSCORE !in s
    ensures PrefixFree(ids) && SuffixFree(ids) && PlatformKeysInjective(ids)
  {
    forall s, t | s in ids && t in ids
      ensures !(s + [UNDERSCORE] <= t) && !EndsWith(t, [UNDERSCORE] + s)
    {
      UnderscoreInside(s, t);
    }
    PlatformKeysInjectiveIff(ids);
  }

  ghost predicate SubinterfaceKeysInjective(ids: iset<Bytes>, subs: iset<Bytes>) {
    forall sec, system, interface, sub, sec', system', interface', sub' ::
      system in ids && system' in ids && sub in subs && sub' in subs
      && SubinterfaceKey(sec, system, interface, sub) == SubinterfaceKey(sec', system', interface', sub')
      ==> sec == sec' && system == system' && interface == interface' && sub == sub'
  }

  lemma ShorterFieldIsSuffix(u: Bytes, s: Bytes, u': Bytes, s': Bytes)
    requires u + [UNDERSCORE] + s == u' + [UNDERSCORE] + s'
    ensures |s| < |s'| ==> EndsWith(s', [UNDERSCORE] + s)
    ensures |s| == |s'| ==> u == u' && s == s'
  {
    var t := u + [UNDERSCORE] + s;
    assert s == t[|t| - |s|..] && s' == t[|t| - |s'|..];
    assert [UNDERSCORE] + s == t[|t| - |s| - 1..];
    assert u == t[..|t| - |s| - 1] && u' == t[..|t| - |s'| - 1];
    if |s| < |s'| {
      assert s'[|s'| - |s| - 1..] == t[|t| - |s| - 1..];
    }
  }

  lemma SuffixDecides(subs: iset<Bytes>, u: Bytes, s: Bytes, u': Bytes, s': Bytes)
    requires SuffixFree(subs) && s in subs && s' in subs
    requires u + [UNDERSCORE] + s == u' + [UNDERSCORE] + s'
    ensures u == u' && s == s'
  {
    ShorterFieldIsSuffix(u, s, u', s');
    ShorterFieldIsSuffix(u', s', u, s);
  }

  lemma SubinterfaceKeySplit(sec: int, system: Bytes, interface: Bytes, sub: Bytes)
    ensures SubinterfaceKey(sec, system, interface, sub) == PlatformKey(sec, system, interface) + [UNDERSCORE] + sub
    ensures SubinterfaceKey(sec, system, interface, sub) == PlatformKey(sec, system, interface + [UNDERSCORE] + sub)
  {
    assert SubinterfaceKey(sec, system, interface, sub)
        == PlatformKey(sec, system, interface + [UNDERSCORE] + sub);
  }

  /** Exact condition for subinterface keys: prefix-free system ids and suffix-free subinterface names. */
  lemma SubinterfaceKeysInjectiveIff(ids: iset<Bytes>, subs: iset<Bytes>, someId: Bytes, someSub: Bytes)
    requires someId in ids && someSub in subs
    ensures SubinterfaceKeysInjective(ids, subs) <==> PrefixFree(ids) && SuffixFree(subs)
  {
    if !PrefixFree(ids) {
      var s, t :| s in ids && t in ids && s + [UNDERSCORE] <= t;
      var rest := t[|s| + 1..];
      assert t == s + [UNDERSCORE] + rest;
      assert SubinterfaceKey(0, s, rest + [UNDERSCORE], someSub) == SubinterfaceKey(0, t, [], someSub);
      assert s != t;
    } else if !SuffixFree(subs) {
      var s, t :| s in subs && t in subs && EndsWith(t, [UNDERSCORE] + s);
      var rest := t[..|t| - |s| - 1];
      assert t == rest + [UNDERSCORE] + s;
      assert SubinterfaceKey(0, someId, [UNDERSCORE] + rest, s) == SubinterfaceKey(0, someId, [], t);
      assert s != t;
    } else {
      forall sec, system, interface, sub, sec', system', interface', sub' |
        system in ids && system' in ids && sub in subs && sub' in subs
        && SubinterfaceKey(sec, system, interface, sub) == SubinterfaceKey(sec', system', interface', sub')
        ensures sec == sec' && system == system' && interface == interface' && sub == sub'
      {
        SubinterfaceKeySplit(sec, system, interface, sub);
        SubinterfaceKeySplit(sec', system', interface', sub');
        SuffixDecides(subs, PlatformKey(sec, system, interface), sub, PlatformKey(sec', system', interface'), sub');
        PlatformKeyCollision(sec, system, interface, sec', system', interface');
        PrefixDecides(ids, system, interface, system', interface');
      }
    }
  }

  /** The parser prints the sub-port in decimal, and printed naturals form a suffix-free set. */
  lemma DecimalSubsSuffixFree(subs: iset<Bytes>)
    requires forall s :: s in subs ==> exists n: nat :: s == Print(BYTES, n)
    ensures SuffixFree(subs)
  {
    forall s | s in subs
      ensures UNDERSCORE !in s
    {
      var n: nat :| s == Print(BYTES, n);
      assert forall c :: c in PrintNat(BYTES, n) ==> c in BYTES.digits;
    }
    PlainIdsPrefixFree(subs);
  }

  /** Alarm and notification keys are decodable from the right, whatever bytes the system id has. */
  lemma AlarmKeyInjective(system: Bytes, flow: nat, stamp: nat, system': Bytes, flow': nat, stamp': nat)
    ensures AlarmKey(system, flow, stamp) == AlarmKey(system', flow', stamp')
       <==> system == system' && flow == flow' && stamp == stamp'
  {
    if AlarmKey(system, flow, stamp) == AlarmKey(system', flow', stamp') {
      var head, head' := system + [COLON] + Print(BYTES, flow), system' + [COLON] + Print(BYTES, flow');
      assert COLON !in BYTES.digits;
      SplitLast(head, Print(BYTES, stamp), head', Print(BYTES, stamp'), COLON);
      SplitLast(system, Print(BYTES, flow), system', Print(BYTES, flow'), COLON);
      PrintInjective(BYTES, flow, flow');
      PrintInjective(BYTES, stamp, stamp');
    }
  }
}
