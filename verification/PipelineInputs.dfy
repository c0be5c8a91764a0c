/** Conservation of inputs: every accepted record is in exactly one row, and each row's value is the fold
    of exactly the records it absorbed, in the order they were accepted. */
module PipelineInputs {
  import opened Sequences
  import opened FlatBuffer
  import opened ShardedMaps
  import opened Pipeline
  import opened PipelineRows

  ghost function Recs<R>(parts: seq<Input<R>>): seq<R> {
    if parts == [] then [] else Recs(parts[..|parts| - 1]) + [parts[|parts| - 1].rec]
  }

  /** The row lies under the key of its value and of all its inputs, and is their fold in order of acceptance. */
  ghost predicate GoodRow<R>(cfg: Config<R>, r: Row<R>) {
    && r.parts != [] && Fold(cfg.table.merge, Recs(r.parts)) == Some(r.value)
    && cfg.table.key(r.value) == r.key
    && (forall i :: 0 <= i < |r.parts| ==> cfg.table.key(r.parts[i].rec) == r.key)
    && (forall i, j :: 0 <= i < j < |r.parts| ==> r.parts[i].id < r.parts[j].id)
  }

  /** All rows there are: buffered ones and everything ever drained. */
  ghost function AllRows<R>(s: State<R>): multiset<Row<R>> {
    BufferRows(s.shards) + Gather(s.drained, DrainedRow)
  }

  ghost predicate Conserved<R>(s: State<R>) {
    && Parts(AllRows(s)) == multiset(s.accepted)
    && forall i :: 0 <= i < |s.accepted| ==> s.accepted[i].id == i
  }

  ghost predicate RowsGood<R(!new)>(cfg: Config<R>, s: State<R>) {
    forall r :: r in AllRows(s) ==> GoodRow(cfg, r)
  }

  ghost predicate InputsSafe<R(!new)>(cfg: Config<R>, s: State<R>) {
    Placed(cfg, s.shards) && Conserved(s) && RowsGood(cfg, s)
  }

  lemma PartOfRowAccepted<R>(s: State<R>, r: Row<R>, j: nat)
    requires Conserved(s) && r in AllRows(s) && j < |r.parts|
    ensures r.parts[j] in s.accepted && r.parts[j].id < |s.accepted|
  {
    PartsRemove(AllRows(s), r);
    assert r.parts[j] in multiset(r.parts);
    assert r.parts[j] in multiset(s.accepted);
  }

  lemma InsertOnTop<T>(but: multiset<T>, m: multiset<T>, d: multiset<T>, r: multiset<T>)
    ensures but + (m + r) + d == but + m + d + r
  {
  }

  lemma ReplaceOnTop<T>(but: multiset<T>, m: multiset<T>, d: multiset<T>, o: multiset<T>, r: multiset<T>)
    requires o <= m
    ensures but + (m - o + r) + d == but + m + d - o + r
  {
  }

  /** What absorbing one record does to the collection of all rows. */
  lemma AbsorbRows<R>(cfg: Config<R>, s: State<R>, i: nat)
    requires MasksToShard(cfg.shardOf) && Placed(cfg, s.shards) && i < |s.adders| && s.adders[i].todo != []
    ensures var s' := AfterAbsorb(cfg, s, i);
            var k := cfg.table.key(s.adders[i].todo[0]);
            var m := s.shards[cfg.shardOf(k)];
            var row := s'.shards[cfg.shardOf(k)][k];
            && (k in m ==> m[k] in AllRows(s) && AllRows(s') == AllRows(s) - multiset{m[k]} + multiset{row})
            && (k !in m ==> AllRows(s') == AllRows(s) + multiset{row})
  {
    var s' := AfterAbsorb(cfg, s, i);
    var k := cfg.table.key(s.adders[i].todo[0]);
    var n := cfg.shardOf(k);
    var m, m' := s.shards[n], s'.shards[n];
    var row := m'[k];
    var but, d := GatherBut(s.shards, n, ShardRows), Gather(s.drained, DrainedRow);
    GatherUpdate(s.shards, n, m', ShardRows);
    PlacedKeyed(cfg, s.shards, n);
    if k in m {
      ShardRowsReplace(m, k, row);
      ReplaceOnTop(but, ShardRows(m), d, multiset{m[k]}, multiset{row});
    } else {
      ShardRowsInsert(m, k, row);
      InsertOnTop(but, ShardRows(m), d, multiset{row});
    }
  }

  lemma NewRowGood<R(!new)>(cfg: Config<R>, r: R, x: Input<R>)
    requires x.rec == r
    ensures GoodRow(cfg, Row(cfg.table.key(r), r, [x]))
  {
    assert [x][..0] == [] && Recs([x]) == [r];
    FoldSingle(cfg.table.merge, r);
  }

  lemma MergedRowGood<R(!new)>(cfg: Config<R>, row: Row<R>, x: Input<R>)
    requires GoodRow(cfg, row) && KeyStable(cfg.table) && cfg.table.key(x.rec) == row.key
    requires forall j :: 0 <= j < |row.parts| ==> row.parts[j].id < x.id
    ensures GoodRow(cfg, Row(row.key, cfg.table.merge(row.value, x.rec), row.parts + [x]))
  {
    var parts := row.parts + [x];
    assert parts[..|row.parts|] == row.parts;
    assert Recs(parts) == Recs(row.parts) + [x.rec];
    var rs := Recs(parts);
    assert rs[..|rs| - 1] == Recs(row.parts);
  }

  lemma AbsorbAddsPart<R(!new)>(cfg: Config<R>, s: State<R>, i: nat)
    requires MasksToShard(cfg.shardOf) && Placed(cfg, s.shards) && i < |s.adders| && s.adders[i].todo != []
    ensures Parts(AllRows(AfterAbsorb(cfg, s, i))) == Parts(AllRows(s)) + multiset{Input(|s.accepted|, s.adders[i].todo[0])}
  {
    var s' := AfterAbsorb(cfg, s, i);
    var k := cfg.table.key(s.adders[i].todo[0]);
    var m := s.shards[cfg.shardOf(k)];
    var row := s'.shards[cfg.shardOf(k)][k];
    var x := Input(|s.accepted|, s.adders[i].todo[0]);
    AbsorbRows(cfg, s, i);
    if k in m {
      PartsReplace(AllRows(s), m[k], row, x);
    } else {
      PartsAdd(AllRows(s), row);
      assert multiset([x]) == multiset{x};
    }
  }

  lemma ConservedWithOneMore<R>(s: State<R>, s': State<R>, x: Input<R>)
    requires Conserved(s) && s'.accepted == s.accepted + [x] && x.id == |s.accepted|
    requires Parts(AllRows(s')) == Parts(AllRows(s)) + multiset{x}
    ensures Conserved(s')
  {
    assert multiset(s.accepted + [x]) == multiset(s.accepted) + multiset{x};
  }

  lemma AbsorbConserves<R(!new)>(cfg: Config<R>, s: State<R>, i: nat)
    requires MasksToShard(cfg.shardOf) && Placed(cfg, s.shards) && Conserved(s) && i < |s.adders| && s.adders[i].todo != []
    ensures Conserved(AfterAbsorb(cfg, s, i))
  {
    AbsorbAddsPart(cfg, s, i);
    ConservedWithOneMore(s, AfterAbsorb(cfg, s, i), Input(|s.accepted|, s.adders[i].todo[0]));
  }

  lemma AbsorbKeepsRowsGood<R(!new)>(cfg: Config<R>, s: State<R>, i: nat)
    requires Usable(cfg) && InputsSafe(cfg, s) && i < |s.adders| && s.adders[i].todo != []
    ensures RowsGood(cfg, AfterAbsorb(cfg, s, i))
  {
    var s' := AfterAbsorb(cfg, s, i);
    var r := s.adders[i].todo[0];
    var k := cfg.table.key(r);
    var m := s.shards[cfg.shardOf(k)];
    var x := Input(|s.accepted|, r);
    AbsorbRows(cfg, s, i);
    if k in m {
      forall j | 0 <= j < |m[k].parts|
        ensures m[k].parts[j].id < x.id
      {
        PartOfRowAccepted(s, m[k], j);
      }
      assert GoodRow(cfg, m[k]);
      MergedRowGood(cfg, m[k], x);
    } else {
      NewRowGood(cfg, r, x);
    }
  }

  /** Draining a shard moves its rows without touching any. */
  lemma DrainKeepsAllRows<R>(cfg: Config<R>, s: State<R>, i: nat, order: seq<Row<R>>)
    requires MasksToShard(cfg.shardOf) && Placed(cfg, s.shards) && |s.lastDrain| == SHARD_COUNT
    requires Enabled(cfg, s, DrainShard(i, order))
    ensures AllRows(AfterDrainShard(s, i, order)) == AllRows(s)
  {
    var n := s.flushes[i].stage.shard;
    GatherUpdate(s.shards, n, map[], ShardRows);
    DrainedGrows(s.drained, i, order);
  }

  lemma AbsorbKeepsPlaced<R>(cfg: Config<R>, s: State<R>, i: nat)
    requires MasksToShard(cfg.shardOf) && Placed(cfg, s.shards) && i < |s.adders| && s.adders[i].todo != []
    ensures Placed(cfg, AfterAbsorb(cfg, s, i).shards)
  {
    var s' := AfterAbsorb(cfg, s, i);
    forall j, k | 0 <= j < SHARD_COUNT && k in s'.shards[j]
      ensures cfg.shardOf(k) == j && s'.shards[j][k].key == k
    {
      assert k != cfg.table.key(s.adders[i].todo[0]) ==> k in s.shards[j];
    }
  }

  lemma OnlyAbsorbAndDrain<R>(cfg: Config<R>, s: State<R>, a: Action<R>)
    requires MasksToShard(cfg.shardOf) && |s.shards| == SHARD_COUNT == |s.lastDrain| && Enabled(cfg, s, a)
    requires !a.Absorb? && !a.DrainShard?
    ensures Next(cfg, s, a).shards == s.shards && Next(cfg, s, a).drained == s.drained
    ensures Next(cfg, s, a).accepted == s.accepted && Next(cfg, s, a).lastDrain == s.lastDrain
  {
  }

  lemma SameInputs<R(!new)>(cfg: Config<R>, s: State<R>, s': State<R>)
    requires InputsSafe(cfg, s) && s'.shards == s.shards && s'.drained == s.drained && s'.accepted == s.accepted
    ensures InputsSafe(cfg, s')
  {
    assert AllRows(s') == AllRows(s);
  }

  lemma DrainKeepsInputsSafe<R(!new)>(cfg: Config<R>, s: State<R>, i: nat, order: seq<Row<R>>)
    requires Usable(cfg) && InputsSafe(cfg, s) && |s.lastDrain| == SHARD_COUNT && Enabled(cfg, s, DrainShard(i, order))
    ensures InputsSafe(cfg, AfterDrainShard(s, i, order))
  {
    DrainKeepsAllRows(cfg, s, i, order);
  }

  lemma StepKeepsInputsSafe<R(!new)>(cfg: Config<R>, s: State<R>, a: Action<R>)
    requires Usable(cfg) && InputsSafe(cfg, s) && |s.lastDrain| == SHARD_COUNT && Enabled(cfg, s, a)
    ensures InputsSafe(cfg, Next(cfg, s, a))
  {
    match a {
      case Absorb(i) =>
        AbsorbKeepsPlaced(cfg, s, i);
        AbsorbConserves(cfg, s, i);
        AbsorbKeepsRowsGood(cfg, s, i);
      case DrainShard(i, order) =>
        DrainKeepsInputsSafe(cfg, s, i, order);
      case _ =>
        OnlyAbsorbAndDrain(cfg, s, a);
        SameInputs(cfg, s, Next(cfg, s, a));
    }
  }
}
