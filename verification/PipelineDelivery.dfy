/** How often the database committed an input: the retry bounds of batches, carried to the inputs they hold. */
module PipelineDelivery {
  import opened Sequences
  import opened Pipeline
  import opened PipelineRows
  import opened PipelineTheorems

  /** How often an input was committed over all writes. */
  ghost function TimesCommitted<R>(ops: seq<Op<R>>, x: Input<R>): nat {
    if ops == [] then 0
    else (if x in Parts(OpRows(ops[0])) then ops[0].write.commits else 0) + TimesCommitted(ops[1..], x)
  }

  /** Op number o, and no other, holds the input. */
  ghost predicate SoleOp<R>(ops: seq<Op<R>>, o: nat, x: Input<R>) {
    o < |ops| && forall p :: 0 <= p < |ops| ==> (x in Parts(OpRows(ops[p])) <==> p == o)
  }

  ghost predicate NoOp<R>(ops: seq<Op<R>>, x: Input<R>) {
    forall p :: 0 <= p < |ops| ==> x !in Parts(OpRows(ops[p]))
  }

  lemma {:induction false} NotCommitted<R>(ops: seq<Op<R>>, x: Input<R>)
    requires NoOp(ops, x)
    ensures TimesCommitted(ops, x) == 0
  {
    if ops == [] {
    } else {
      NotCommitted(ops[1..], x);
    }
  }

  lemma {:induction false} CommittedBySole<R>(ops: seq<Op<R>>, o: nat, x: Input<R>)
    requires SoleOp(ops, o, x)
    ensures TimesCommitted(ops, x) == ops[o].write.commits
  {
    if o == 0 {
      NotCommitted(ops[1..], x);
    } else {
      CommittedBySole(ops[1..], o - 1, x);
    }
  }

  lemma PartIn<R>(rows: multiset<Row<R>>, r: Row<R>, x: Input<R>)
    requires r in rows && x in r.parts
    ensures x in Parts(rows)
  {
    PartsRemove(rows, r);
    assert x in multiset(r.parts);
  }

  /** The inputs of a collection of ops are those of its members. */
  lemma OpsHold<R>(ops: seq<Op<R>>, p: nat, x: Input<R>)
    requires p < |ops| && x in Parts(OpRows(ops[p]))
    ensures x in Parts(Gather(ops, OpRows))
  {
    var r := PartFromRow(OpRows(ops[p]), x);
    GatherMember(ops, OpRows, r);
    PartIn(Gather(ops, OpRows), r, x);
  }

  /** An input held by two ops is counted twice. */
  lemma HeldTwice<R>(ops: seq<Op<R>>, o: nat, p: nat, x: Input<R>)
    requires o < |ops| && p < |ops| && o != p && x in Parts(OpRows(ops[o])) && x in Parts(OpRows(ops[p]))
    ensures Parts(Gather(ops, OpRows))[x] >= 2
  {
    var but := GatherBut(ops, o, OpRows);
    HeldBeside(ops, o, p, x);
    GatherUpdate(ops, o, ops[o], OpRows);
    PartsSum(but, OpRows(ops[o]));
    CountedTwice(Parts(but), Parts(OpRows(ops[o])), x);
  }

  lemma CountedTwice<T>(a: multiset<T>, b: multiset<T>, x: T)
    requires x in a && x in b
    ensures (a + b)[x] >= 2
  {
  }

  lemma HeldBeside<R>(ops: seq<Op<R>>, o: nat, p: nat, x: Input<R>)
    requires o < |ops| && p < |ops| && o != p && x in Parts(OpRows(ops[p]))
    ensures x in Parts(GatherBut(ops, o, OpRows))
  {
    var but := ops[..o] + ops[o + 1..];
    assert but[if p < o then p else p - 1] == ops[p];
    OpsHold(but, if p < o then p else p - 1, x);
    GatherConcat(ops[..o], ops[o + 1..], OpRows);
  }

  lemma OpsOnce<R(!new)>(cfg: Config<R>, s: State<R>, x: Input<R>)
    requires Usable(cfg) && Reachable(cfg, s)
    ensures Parts(Gather(s.ops, OpRows))[x] <= 1
  {
    ExactlyOnePlace(cfg, s);
    var p := PlacesOf(s);
    assert Occurrences(p, x) <= 1;
    OpPlaces(s.ops);
    PartsSum(p.writing, p.written);
    PartsSum(p.writing + p.written, p.failed);
  }

  /** An input held by an op is held by no other. */
  lemma HeldBySole<R(!new)>(cfg: Config<R>, s: State<R>, o: nat, x: Input<R>)
    requires Usable(cfg) && Reachable(cfg, s) && o < |s.ops| && x in Parts(OpRows(s.ops[o]))
    ensures SoleOp(s.ops, o, x)
  {
    OpsOnce(cfg, s, x);
    forall p | 0 <= p < |s.ops| && p != o
      ensures x !in Parts(OpRows(s.ops[p]))
    {
      if x in Parts(OpRows(s.ops[p])) {
        HeldTwice(s.ops, o, p, x);
      }
    }
  }

  /** The op that holds a written or failed input. */
  lemma OpOf<R>(ops: seq<Op<R>>, f: Op<R> -> multiset<Row<R>>, x: Input<R>) returns (o: nat)
    requires x in Parts(Gather(ops, f)) && forall op :: op in ops ==> f(op) <= OpRows(op)
    ensures o < |ops| && x in Parts(OpRows(ops[o])) && f(ops[o]) != multiset{}
  {
    var r := PartFromRow(Gather(ops, f), x);
    GatherMember(ops, f, r);
    o :| 0 <= o < |ops| && r in f(ops[o]);
    PartIn(OpRows(ops[o]), r, x);
  }

  /** At-least-once delivery of every written input: it was committed at least once, and at most once more
      than the attempts of its batch that timed out; without timeouts exactly once. */
  lemma WrittenInputCommitted<R(!new)>(cfg: Config<R>, s: State<R>, x: Input<R>) returns (o: nat)
    requires Usable(cfg) && Reachable(cfg, s) && x in Parts(PlacesOf(s).written)
    ensures SoleOp(s.ops, o, x) && s.ops[o].write.verdict.Succeeded?
    ensures 1 <= TimesCommitted(s.ops, x) <= 1 + s.ops[o].write.timedOut
  {
    o := OpOf(s.ops, WrittenRows, x);
    HeldBySole(cfg, s, o, x);
    CommittedBySole(s.ops, o, x);
    BatchDelivery(cfg, s, o);
  }

  /** A failed input was committed at most as often as attempts of its batch timed out. */
  lemma FailedInputCommitted<R(!new)>(cfg: Config<R>, s: State<R>, x: Input<R>) returns (o: nat)
    requires Usable(cfg) && Reachable(cfg, s) && x in Parts(PlacesOf(s).failed)
    ensures SoleOp(s.ops, o, x) && s.ops[o].write.verdict.Failed?
    ensures TimesCommitted(s.ops, x) <= s.ops[o].write.timedOut
  {
    o := OpOf(s.ops, FailedRows, x);
    HeldBySole(cfg, s, o, x);
    CommittedBySole(s.ops, o, x);
    BatchDelivery(cfg, s, o);
  }

  /** An input in none of the three places of writes was never committed. */
  lemma UnwrittenNotCommitted<R(!new)>(cfg: Config<R>, s: State<R>, x: Input<R>)
    requires Usable(cfg) && Reachable(cfg, s)
    requires x !in Parts(PlacesOf(s).writing) && x !in Parts(PlacesOf(s).written) && x !in Parts(PlacesOf(s).failed)
    ensures TimesCommitted(s.ops, x) == 0
  {
    var p := PlacesOf(s);
    OpPlaces(s.ops);
    PartsSum(p.writing, p.written);
    PartsSum(p.writing + p.written, p.failed);
    forall o | 0 <= o < |s.ops|
      ensures x !in Parts(OpRows(s.ops[o]))
    {
      if x in Parts(OpRows(s.ops[o])) {
        OpsHold(s.ops, o, x);
      }
    }
    NotCommitted(s.ops, x);
  }
}
