/** The two decode loops of the parser, over pooled message objects: one skips payloads that do not decode,
    one gives up at the first. Protobuf decoding is an oracle. */
module DecodeLoops {
  import opened Sequences
  import opened Keys

  /** What a payload decodes to, what a failed decoding leaves in the message, what a reset message holds,
      and the metric of a decoded component, if it carries the sub-information the handler looks for. */
  datatype Codec<!C, +M> = Codec(decode: Bytes -> Option<C>, partial: Bytes -> C, blank: C, metric: C -> Option<M>)

  datatype Error = EmptyData | DecodeFailed

  datatype Result<+T> = Ok(value: T) | Err(error: Error)

  /** A reusable message object. */
  class Message<C> {
    var content: C

    constructor (content: C)
      ensures this.content == content
    {
      this.content := content;
    }

    /** Unmarshalling replaces whatever was in the message, also when it fails half-way. */
    method Unmarshal<M>(codec: Codec<C, M>, payload: Bytes) returns (ok: bool)
      modifies this
      ensures ok == codec.decode(payload).Some?
      ensures content == if ok then codec.decode(payload).value else codec.partial(payload)
    {
      match codec.decode(payload)
      case Some(c) =>
        content := c;
        ok := true;
      case None =>
        content := codec.partial(payload);
        ok := false;
    }
  }

  /** A pool of messages. `lent` holds the messages taken out and not yet given back. */
  class MessagePool<C> {
    var items: seq<Message<C>>
    ghost var lent: set<Message<C>>

    ghost predicate Valid()
      reads this
    {
      && (forall i, j :: 0 <= i < j < |items| ==> items[i] != items[j])
      && (forall m :: m in items ==> m !in lent)
    }

    constructor ()
      ensures Valid() && items == [] && lent == {}
    {
      items := [];
      lent := {};
    }

    /** Hands out any pooled message, whatever it holds, or a new one. */
    method Get(blank: C) returns (m: Message<C>)
      requires Valid()
      modifies this
      ensures Valid() && m !in old(lent) && lent == old(lent) + {m}
      ensures fresh(m) || m in old(items)
      ensures forall o :: o in items ==> o in old(items)
    {
      var allocate: bool := *;
      if allocate || items == [] {
        m := new Message(blank);
      } else {
        var i :| 0 <= i < |items|;
        m := items[i];
        items := items[..i] + items[i + 1..];
      }
      lent := lent + {m};
    }

    /** A message can be given back once only. */
    method Put(m: Message<C>)
      requires Valid() && m in lent
      modifies this
      ensures Valid() && lent == old(lent) - {m} && items == old(items) + [m]
    {
      items := items + [m];
      lent := lent - {m};
    }
  }

  function MetricOf<C, M>(codec: Codec<C, M>, payload: Bytes): Option<M> {
    match codec.decode(payload)
    case None => None
    case Some(c) => codec.metric(c)
  }

  function FilterMap<C, M>(codec: Codec<C, M>, payloads: seq<Bytes>): seq<M> {
    if payloads == [] then []
    else
      FilterMap(codec, payloads[..|payloads| - 1]) +
      match MetricOf(codec, payloads[|payloads| - 1]) { case None => [] case Some(x) => [x] }
  }

  ghost predicate AllDecode<C, M>(codec: Codec<C, M>, payloads: seq<Bytes>) {
    forall p :: p in payloads ==> codec.decode(p).Some?
  }

  /** What the skipping parser returns. */
  function Skipping<C, M>(codec: Codec<C, M>, payloads: seq<Bytes>): Result<seq<M>> {
    if payloads == [] then Err(EmptyData) else Ok(FilterMap(codec, payloads))
  }

  /** What the fail-fast parser returns. */
  ghost function FailFast<C, M>(codec: Codec<C, M>, payloads: seq<Bytes>): Result<seq<M>> {
    if payloads == [] then Err(EmptyData)
    else if AllDecode(codec, payloads) then Ok(FilterMap(codec, payloads))
    else Err(DecodeFailed)
  }

  /** What the loops can leave in a message: the reset contents, or those of a payload that did not decode. */
  ghost predicate LeftOver<C, M>(codec: Codec<C, M>, payloads: seq<Bytes>, content: C) {
    content == codec.blank || exists p :: p in payloads && codec.decode(p).None? && content == codec.partial(p)
  }

  /** The result depends on the payloads alone, not on what the pooled messages held, and every message that
      was taken from the pool is back in it, reset unless its payload did not decode. */
  method ParseSkipping<C, M>(codec: Codec<C, M>, pool: MessagePool<C>, payloads: seq<Bytes>) returns (r: Result<seq<M>>)
    requires pool.Valid()
    modifies pool, pool.items
    ensures pool.Valid() && pool.lent == old(pool.lent)
    ensures forall m :: m in pool.items ==> (m in old(pool.items) && m.content == old(m.content)) || LeftOver(codec, payloads, m.content)
    ensures r == Skipping(codec, payloads)
  {
    if |payloads| == 0 {
      return Err(EmptyData);
    }
    var metrics: seq<M> := [];
    for i := 0 to |payloads|
      invariant pool.Valid() && pool.lent == old(pool.lent)
      invariant forall m :: m in pool.items ==> m in old(pool.items) || fresh(m)
      invariant forall m :: m in pool.items ==> (m in old(pool.items) && m.content == old(m.content)) || LeftOver(codec, payloads, m.content)
      invariant metrics == FilterMap(codec, payloads[..i])
    {
      assert payloads[..i + 1][..i] == payloads[..i];
      var message := pool.Get(codec.blank);
      var ok := message.Unmarshal(codec, payloads[i]);
      if !ok {
        pool.Put(message);
        continue;
      }
      match codec.metric(message.content) {
        case Some(x) => metrics := metrics + [x];
        case None =>
      }
      message.content := codec.blank;
      pool.Put(message);
    }
    assert payloads[..|payloads|] == payloads;
    return Ok(metrics);
  }

  method ParseFailFast<C, M>(codec: Codec<C, M>, pool: MessagePool<C>, payloads: seq<Bytes>) returns (r: Result<seq<M>>)
    requires pool.Valid()
    modifies pool, pool.items
    ensures pool.Valid() && pool.lent == old(pool.lent)
    ensures forall m :: m in pool.items ==> (m in old(pool.items) && m.content == old(m.content)) || LeftOver(codec, payloads, m.content)
    ensures r == FailFast(codec, payloads)
  {
    if |payloads| == 0 {
      return Err(EmptyData);
    }
    var metrics: seq<M> := [];
    for i := 0 to |payloads|
      invariant pool.Valid() && pool.lent == old(pool.lent)
      invariant forall m :: m in pool.items ==> m in old(pool.items) || fresh(m)
      invariant forall m :: m in pool.items ==> (m in old(pool.items) && m.content == old(m.content)) || LeftOver(codec, payloads, m.content)
      invariant AllDecode(codec, payloads[..i]) && metrics == FilterMap(codec, payloads[..i])
    {
      assert payloads[..i + 1][..i] == payloads[..i];
      var message := pool.Get(codec.blank);
      var ok := message.Unmarshal(codec, payloads[i]);
      if !ok {
        pool.Put(message);
        return Err(DecodeFailed);
      }
      match codec.metric(message.content) {
        case Some(x) => metrics := metrics + [x];
        case None =>
      }
      message.content := codec.blank;
      pool.Put(message);
    }
    assert payloads[..|payloads|] == payloads;
    return Ok(metrics);
  }

  // What the filter-map means.

  /** The payload decodes, and what it decodes to carries this metric. */
  ghost predicate Carries<C, M>(codec: Codec<C, M>, payload: Bytes, metric: M) {
    codec.decode(payload).Some? && codec.metric(codec.decode(payload).value) == Some(metric)
  }

  /** The payload does not decode, or what it decodes to carries no metric. */
  predicate CarriesNone<C, M>(codec: Codec<C, M>, payload: Bytes) {
    codec.decode(payload).None? || codec.metric(codec.decode(payload).value).None?
  }

  /** The metrics are those carried by the payloads at `kept`, in order; the others carry none. */
  ghost predicate Selects<C, M>(codec: Codec<C, M>, payloads: seq<Bytes>, kept: seq<nat>, metrics: seq<M>) {
    && |kept| == |metrics|
    && (forall i :: 0 <= i < |kept| ==> kept[i] < |payloads| && Carries(codec, payloads[kept[i]], metrics[i]))
    && (forall i, j :: 0 <= i < j < |kept| ==> kept[i] < kept[j])
    && (forall k: nat :: k < |payloads| && k !in kept ==> CarriesNone(codec, payloads[k]))
  }

  /** The filter-map keeps the order and loses no payload that yields a metric. */
  lemma {:induction false} FilterMapSelects<C, M>(codec: Codec<C, M>, payloads: seq<Bytes>) returns (kept: seq<nat>)
    ensures Selects(codec, payloads, kept, FilterMap(codec, payloads))
  {
    if payloads == [] {
      kept := [];
    } else {
      var n := |payloads| - 1;
      var before := FilterMapSelects(codec, payloads[..n]);
      kept := before;
      if MetricOf(codec, payloads[n]).Some? {
        kept := before + [n];
        assert kept[|before|] == n;
      }
      forall k: nat | k < |payloads| && k !in kept
        ensures CarriesNone(codec, payloads[k])
      {
        assert k < n ==> payloads[..n][k] == payloads[k];
        assert before <= kept && forall b :: b in before ==> b in kept;
      }
    }
  }

  lemma {:induction false} FilterMapConcat<C, M>(codec: Codec<C, M>, a: seq<Bytes>, b: seq<Bytes>)
    ensures FilterMap(codec, a + b) == FilterMap(codec, a) + FilterMap(codec, b)
  {
    if b == [] {
      assert a + b == a;
    } else {
      var n := |b| - 1;
      assert (a + b)[..|a + b| - 1] == a + b[..n];
      FilterMapConcat(codec, a, b[..n]);
    }
  }

  lemma {:induction false} FilterMapNothing<C, M>(codec: Codec<C, M>, payloads: seq<Bytes>)
    requires forall p :: p in payloads ==> MetricOf(codec, p).None?
    ensures FilterMap(codec, payloads) == []
  {
    if payloads == [] {
    } else {
      FilterMapNothing(codec, payloads[..|payloads| - 1]);
    }
  }

  /** One undecodable payload costs the skipping parser that payload only, and the fail-fast parser everything. */
  lemma CostOfOneFailure<C, M>(codec: Codec<C, M>, a: seq<Bytes>, bad: Bytes, b: seq<Bytes>)
    requires a + b != [] && codec.decode(bad).None?
    ensures Skipping(codec, a + [bad] + b) == Skipping(codec, a + b)
    ensures FailFast(codec, a + [bad] + b) == Err(DecodeFailed)
  {
    FilterMapConcat(codec, a + [bad], b);
    FilterMapConcat(codec, a, [bad]);
    FilterMapConcat(codec, a, b);
    FilterMapNothing(codec, [bad]);
    assert FilterMap(codec, a + [bad]) == FilterMap(codec, a);
    assert a + [bad] + b != [];
    assert (a + [bad] + b)[|a|] == bad;
  }

  lemma AllDecodeOrNot<C, M>(codec: Codec<C, M>, payloads: seq<Bytes>)
    ensures AllDecode(codec, payloads) <==> !exists p :: p in payloads && codec.decode(p).None?
  {
  }

  /** The fail-fast parser returns an error exactly for no payload or an undecodable one; otherwise both agree. */
  lemma StylesCompared<C, M>(codec: Codec<C, M>, payloads: seq<Bytes>)
    ensures FailFast(codec, payloads).Err? <==> payloads == [] || exists p :: p in payloads && codec.decode(p).None?
    ensures Skipping(codec, payloads).Err? <==> payloads == []
    ensures FailFast(codec, payloads) == Skipping(codec, payloads) <==> (payloads == [] || AllDecode(codec, payloads))
  {
    AllDecodeOrNot(codec, payloads);
  }
}
