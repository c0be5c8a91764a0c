/** Pooled key builders: buffers that are appended in place and reused, refining plain concatenation. */
module KeyPool {
  import opened Keys
  import opened Decimal

  class KeyBuffer {
    var data: array<bv8>
    var len: nat

    ghost predicate Valid()
      reads this
    {
      len <= data.Length
    }

    ghost function Contents(): Bytes
      requires Valid()
      reads this, data
    {
      data[..len]
    }

    constructor ()
      ensures Valid() && Contents() == [] && fresh(data)
    {
      data := new bv8[128];
      len := 0;
    }

    method Reset()
      requires Valid()
      modifies this`len
      ensures Valid() && Contents() == []
    {
      len := 0;
    }

    method WriteString(s: Bytes)
      requires Valid()
      modifies this, data
      ensures Valid() && (data == old(data) || fresh(data))
      ensures Contents() == old(Contents()) + s
    {
      if data.Length < len + |s| {
        var grown := new bv8[2 * (len + |s|)];
        forall i | 0 <= i < len {
          grown[i] := data[i];
        }
        data := grown;
        assert Contents() == old(Contents());
      }
      forall i | 0 <= i < |s| {
        data[len + i] := s[i];
      }
      len := len + |s|;
    }

    method WriteByte(b: bv8)
      requires Valid()
      modifies this, data
      ensures Valid() && (data == old(data) || fresh(data))
      ensures Contents() == old(Contents()) + [b]
    {
      WriteString([b]);
    }

    method WriteInt(v: int)
      requires Valid()
      modifies this, data
      ensures Valid() && (data == old(data) || fresh(data))
      ensures Contents() == old(Contents()) + Print(BYTES, v)
    {
      WriteString(Print(BYTES, v));
    }

    method WriteField(separator: bv8, s: Bytes)
      requires Valid()
      modifies this, data
      ensures Valid() && (data == old(data) || fresh(data))
      ensures Contents() == old(Contents()) + [separator] + s
    {
      WriteByte(separator);
      WriteString(s);
    }

    method WritePlatformKey(nanos: int, system: Bytes, name: Bytes)
      requires Valid() && Contents() == []
      modifies this, data
      ensures Valid() && (data == old(data) || fresh(data))
      ensures Contents() == PlatformKey(UnixSeconds(nanos), system, name)
    {
      WriteInt(UnixSeconds(nanos));
      WriteField(UNDERSCORE, system);
      WriteField(UNDERSCORE, name);
    }

    method WriteSubinterfaceKey(nanos: int, system: Bytes, interface: Bytes, sub: Bytes)
      requires Valid() && Contents() == []
      modifies this, data
      ensures Valid() && (data == old(data) || fresh(data))
      ensures Contents() == SubinterfaceKey(UnixSeconds(nanos), system, interface, sub)
    {
      WritePlatformKey(nanos, system, interface);
      WriteField(UNDERSCORE, sub);
    }

    method WriteReportKey(system: Bytes, flow: nat, stamp: nat)
      requires Valid() && Contents() == []
      modifies this, data
      ensures Valid() && (data == old(data) || fresh(data))
      ensures Contents() == AlarmKey(system, flow, stamp)
    {
      WriteString(system);
      WriteField(COLON, Print(BYTES, flow));
      WriteField(COLON, Print(BYTES, stamp));
    }

    method WriteParts(parts: KeyParts)
      requires Valid() && Contents() == []
      modifies this, data
      ensures Valid() && (data == old(data) || fresh(data))
      ensures Contents() == parts.Key()
    {
      match parts {
        case PlatformParts(nanos, system, name) => WritePlatformKey(nanos, system, name);
        case SubinterfaceParts(nanos, system, interface, sub) => WriteSubinterfaceKey(nanos, system, interface, sub);
        case ReportParts(system, flow, stamp) => WriteReportKey(system, flow, stamp);
      }
    }

    method ToString() returns (s: Bytes)
      requires Valid()
      ensures s == Contents()
    {
      s := data[..len];
    }
  }

  /** What the three kinds of generator write into an empty buffer. */
  datatype KeyParts =
    | PlatformParts(nanos: int, system: Bytes, name: Bytes)
    | SubinterfaceParts(nanos: int, system: Bytes, interface: Bytes, sub: Bytes)
    | ReportParts(system: Bytes, flow: nat, stamp: nat)
  {
    function Key(): Bytes {
      match this
      case PlatformParts(nanos, system, name) => PlatformKey(UnixSeconds(nanos), system, name)
      case SubinterfaceParts(nanos, system, interface, sub) => SubinterfaceKey(UnixSeconds(nanos), system, interface, sub)
      case ReportParts(system, flow, stamp) => AlarmKey(system, flow, stamp)
    }
  }

  lemma TakenOut<T>(s: seq<T>, i: nat)
    requires i < |s|
    ensures multiset(s) == multiset(s[..i] + s[i + 1..]) + multiset{s[i]}
  {
    assert s == s[..i] + ([s[i]] + s[i + 1..]);
  }

  class Pool {
    var free: seq<KeyBuffer>
    ghost var Buffers: set<KeyBuffer>
    ghost var Stores: set<array<bv8>>

    /** Every pooled buffer is empty, and no two share storage. */
    ghost predicate Valid()
      reads this, Buffers
    {
      && (forall i :: 0 <= i < |free| ==> free[i] in Buffers && free[i].data in Stores && free[i].Valid() && free[i].len == 0)
      && (forall i, j :: 0 <= i < j < |free| ==> free[i] != free[j] && free[i].data != free[j].data)
    }

    /** `kb` is out of the pool and shares no storage with it. */
    ghost predicate Lent(kb: KeyBuffer)
      reads this, Buffers, kb
    {
      && kb in Buffers && kb.data in Stores && kb.Valid()
      && forall i :: 0 <= i < |free| ==> free[i] in Buffers && free[i] != kb && free[i].data != kb.data
    }

    /** Neither the pool nor any of its buffers has changed. */
    twostate predicate Untouched()
      reads this, Buffers
    {
      && Buffers == old(Buffers) && Stores == old(Stores) && free == old(free)
      && forall b :: b in Buffers ==> b.data == old(b.data) && b.len == old(b.len)
    }

    /** Whatever the pool has come to use is newly allocated. */
    twostate predicate Grew()
      reads this
    {
      && (forall b :: b in Buffers ==> b in old(Buffers) || fresh(b))
      && (forall a :: a in Stores ==> a in old(Stores) || fresh(a))
    }

    constructor ()
      ensures Valid() && Buffers == {} && Stores == {}
    {
      free := [];
      Buffers, Stores := {}, {};
    }

    method Acquire() returns (kb: KeyBuffer)
      requires Valid()
      modifies this
      ensures Valid() && Lent(kb) && kb.Contents() == []
      ensures Grew()
      // a pooled buffer is taken out, a new one leaves the pool alone
      ensures multiset(old(free)) == multiset(free) + if fresh(kb) then multiset{} else multiset{kb}
      ensures |free| <= |old(free)|
    {
      var pick: int := *;
      if 0 <= pick < |free| {
        kb := free[pick];
        TakenOut(free, pick);
        free := free[..pick] + free[pick + 1..];
      } else {
        kb := new KeyBuffer();
        Buffers, Stores := Buffers + {kb}, Stores + {kb.data};
      }
    }

    method Release(kb: KeyBuffer)
      requires Valid() && Lent(kb)
      modifies this`free, kb`len
      ensures Valid() && free == old(free) + [kb] && kb.len == 0
    {
      kb.Reset();
      free := free + [kb];
    }

    /** Borrow, build, copy out, return: the key is plain concatenation whatever the pool's history. */
    method GenerateKey(parts: KeyParts) returns (key: Bytes)
      requires Valid()
      modifies this, Buffers, Stores
      ensures Valid() && Grew()
      ensures multiset(old(free)) <= multiset(free) && |free| <= |old(free)| + 1
      ensures key == parts.Key()
    {
      var kb := Acquire();
      kb.WriteParts(parts);
      Stores := Stores + {kb.data};
      key := kb.ToString();
      Release(kb);
    }
  }
}
