/** Where rows are: the buffer, the flushes, the channel and the writes, and that no action loses,
    duplicates or alters a row once it is drained. */
module PipelineRows {
  import opened Sequences
  import opened Keys
  import opened ShardedMaps
  import opened Pipeline
  import Retry

  ghost function FlushRows<R>(f: Flush<R>): multiset<Row<R>> { multiset(f.rows) }
  ghost function BatchRows<R>(b: seq<Row<R>>): multiset<Row<R>> { multiset(b) }
  ghost function OpRows<R>(o: Op<R>): multiset<Row<R>> { multiset(o.batch) }
  ghost function DrainedRow<R>(d: Drained<R>): multiset<Row<R>> { multiset{d.row} }

  ghost function BufferRows<R>(shards: seq<map<Bytes, Row<R>>>): multiset<Row<R>> { Gather(shards, ShardRows) }

  /** The rows that have left the buffer. */
  ghost function OutRows<R>(s: State<R>): multiset<Row<R>> {
    Gather(s.flushes, FlushRows) + Gather(s.channel, BatchRows) + Gather(s.ops, OpRows)
  }

  /** Everything ever drained is, unaltered, in a flush, in the channel or in a write. */
  ghost predicate OutAccounted<R>(s: State<R>) {
    OutRows(s) == Gather(s.drained, DrainedRow)
  }

  lemma {:induction false} GatherDrainedBy<R>(f: nat, rows: seq<Row<R>>)
    ensures Gather(DrainedBy(f, rows), DrainedRow) == multiset(rows)
  {
    if rows == [] {
    } else {
      assert DrainedBy(f, rows)[1..] == DrainedBy(f, rows[1..]);
      GatherDrainedBy(f, rows[1..]);
      assert rows == [rows[0]] + rows[1..];
    }
  }

  lemma FlushKeepsRows<R>(s: State<R>, i: nat, f: Flush<R>)
    requires i < |s.flushes| && f.rows == s.flushes[i].rows
    ensures Gather(s.flushes[i := f], FlushRows) == Gather(s.flushes, FlushRows)
  {
    GatherUpdate(s.flushes, i, f, FlushRows);
  }

  lemma OpKeepsRows<R>(s: State<R>, o: nat, op: Op<R>)
    requires o < |s.ops| && op.batch == s.ops[o].batch
    ensures Gather(s.ops[o := op], OpRows) == Gather(s.ops, OpRows)
  {
    GatherUpdate(s.ops, o, op, OpRows);
  }

  lemma RowsIn<T>(flushes: multiset<T>, order: multiset<T>, channel: multiset<T>, ops: multiset<T>)
    ensures flushes + order + channel + ops == flushes + channel + ops + order
  {
  }

  lemma RowsToChannel<T>(rest: multiset<T>, a: multiset<T>, b: multiset<T>, channel: multiset<T>, ops: multiset<T>)
    ensures rest + b + (channel + a) + ops == rest + (a + b) + channel + ops
    ensures rest + b + channel + (ops + a) == rest + (a + b) + channel + ops
  {
  }

  lemma RowsAppended<R>(flushes: seq<Flush<R>>, i: nat, f: Flush<R>, order: seq<Row<R>>)
    requires i < |flushes| && f.rows == flushes[i].rows + order
    ensures Gather(flushes[i := f], FlushRows) == Gather(flushes, FlushRows) + multiset(order)
  {
    GatherUpdate(flushes, i, f, FlushRows);
    assert FlushRows(f) == FlushRows(flushes[i]) + multiset(order);
  }

  lemma DrainKeepsOut<R>(s: State<R>, i: nat, order: seq<Row<R>>)
    requires |s.shards| == SHARD_COUNT == |s.lastDrain| && i < |s.flushes| && OutAccounted(s)
    requires s.flushes[i].stage.Draining? && s.flushes[i].stage.shard < SHARD_COUNT
    ensures OutAccounted(AfterDrainShard(s, i, order))
  {
    RowsAppended(s.flushes, i, AfterDrainShard(s, i, order).flushes[i], order);
    DrainedGrows(s.drained, i, order);
    RowsIn(Gather(s.flushes, FlushRows), multiset(order), Gather(s.channel, BatchRows), Gather(s.ops, OpRows));
  }

  lemma DrainedGrows<R>(drained: seq<Drained<R>>, f: nat, order: seq<Row<R>>)
    ensures Gather(drained + DrainedBy(f, order), DrainedRow) == Gather(drained, DrainedRow) + multiset(order)
  {
    GatherConcat(drained, DrainedBy(f, order), DrainedRow);
    GatherDrainedBy(f, order);
  }

  lemma SendKeepsOut<R>(s: State<R>, i: nat, n: nat, stage: Stage)
    requires i < |s.flushes| && n <= |s.flushes[i].rows|
    ensures var f := s.flushes[i];
            var f' := f.(stage := stage, rows := f.rows[n..]);
            && OutRows(s.(flushes := s.flushes[i := f'], channel := s.channel + [f.rows[..n]])) == OutRows(s)
            && OutRows(s.(flushes := s.flushes[i := f'], ops := s.ops + [Op(f.rows[..n], false, i, Retry.UNSTARTED, false)])) == OutRows(s)
  {
    var f := s.flushes[i];
    var a, b := f.rows[..n], f.rows[n..];
    GatherUpdate(s.flushes, i, f.(stage := stage, rows := b), FlushRows);
    GatherAppend(s.channel, a, BatchRows);
    GatherAppend(s.ops, Op(a, false, i, Retry.UNSTARTED, false), OpRows);
    assert f.rows == a + b;
    RowsToChannel(GatherBut(s.flushes, i, FlushRows), multiset(a), multiset(b),
                  Gather(s.channel, BatchRows), Gather(s.ops, OpRows));
  }

  lemma DispatchKeepsOut<R>(cfg: Config<R>, s: State<R>, i: nat)
    requires i < |s.flushes| && OutAccounted(s)
    ensures OutAccounted(AfterDispatch(cfg, s, i))
  {
    var f := s.flushes[i];
    if f.rows == [] {
      FlushKeepsRows(s, i, f.(stage := Finished(true)));
    } else if |s.channel| < CHANNEL_CAPACITY {
      SendKeepsOut(s, i, NextBatch(cfg, f), Dispatching);
    } else {
      SendKeepsOut(s, i, NextBatch(cfg, f), Direct(|s.ops|));
    }
  }

  lemma ReceiveKeepsOut<R>(s: State<R>, i: nat)
    requires i < |s.writers| && s.channel != [] && OutAccounted(s)
    ensures OutAccounted(AfterReceive(s, i))
  {
    GatherAppend(s.ops, Op(s.channel[0], true, i, Retry.UNSTARTED, false), OpRows);
  }

  /** No action loses, duplicates or alters a drained row. */
  lemma NewFlushKeepsOut<R>(s: State<R>, s': State<R>)
    requires OutAccounted(s) && s'.flushes == s.flushes + [NewFlush(s)]
    requires s'.channel == s.channel && s'.ops == s.ops && s'.drained == s.drained
    ensures OutAccounted(s')
  {
    GatherAppend(s.flushes, NewFlush(s), FlushRows);
  }

  lemma OpKeepsOut<R>(s: State<R>, s': State<R>, o: nat, op: Op<R>)
    requires OutAccounted(s) && o < |s.ops| && op.batch == s.ops[o].batch && s'.ops == s.ops[o := op]
    requires s'.flushes == s.flushes && s'.channel == s.channel && s'.drained == s.drained
    ensures OutAccounted(s')
  {
    OpKeepsRows(s, o, op);
  }

  lemma FlushKeepsOut<R>(s: State<R>, s': State<R>, i: nat, f: Flush<R>)
    requires OutAccounted(s) && i < |s.flushes| && f.rows == s.flushes[i].rows && s'.flushes == s.flushes[i := f]
    requires s'.channel == s.channel && s'.ops == s.ops && s'.drained == s.drained
    ensures OutAccounted(s')
  {
    FlushKeepsRows(s, i, f);
  }

  lemma SameOut<R>(s: State<R>, s': State<R>)
    requires OutAccounted(s) && s'.flushes == s.flushes
    requires s'.channel == s.channel && s'.ops == s.ops && s'.drained == s.drained
    ensures OutAccounted(s')
  {
  }

  lemma OutUntouched<R>(cfg: Config<R>, s: State<R>, a: Action<R>)
    requires MasksToShard(cfg.shardOf) && |s.shards| == SHARD_COUNT == |s.lastDrain| && Enabled(cfg, s, a)
    requires !a.DrainShard? && !a.Dispatch? && !a.Resume? && !a.BeginFlush? && !a.CloseStop?
    requires !a.Receive? && !a.Write? && !a.Report?
    ensures Next(cfg, s, a).channel == s.channel && Next(cfg, s, a).ops == s.ops && Next(cfg, s, a).flushes == s.flushes
    ensures Next(cfg, s, a).drained == s.drained
  {
  }

  lemma StepKeepsOut<R>(cfg: Config<R>, s: State<R>, a: Action<R>)
    requires MasksToShard(cfg.shardOf) && |s.shards| == SHARD_COUNT == |s.lastDrain|
    requires Enabled(cfg, s, a) && OutAccounted(s)
    ensures OutAccounted(Next(cfg, s, a))
  {
    match a {
      case DrainShard(i, order) => DrainKeepsOut(s, i, order);
      case Dispatch(i) => DispatchKeepsOut(cfg, s, i);
      case Receive(i) => ReceiveKeepsOut(s, i);
      case BeginFlush => NewFlushKeepsOut(s, Next(cfg, s, a));
      case CloseStop => NewFlushKeepsOut(s, Next(cfg, s, a));
      case Resume(i) => FlushKeepsOut(s, Next(cfg, s, a), i, AfterResume(s, i).flushes[i]);
      case Write(o, e) => OpKeepsOut(s, Next(cfg, s, a), o, AfterWrite(cfg, s, o, e).ops[o]);
      case Report(i) => OpKeepsOut(s, Next(cfg, s, a), s.writers[i].op, AfterReport(s, i).ops[s.writers[i].op]);
      case _ =>
        OutUntouched(cfg, s, a);
        SameOut(s, Next(cfg, s, a));
    }
  }

  // The inputs behind rows.

  /** All inputs absorbed by a collection of rows. */
  ghost function Parts<R>(rows: multiset<Row<R>>): multiset<Input<R>>
    decreases |rows|
  {
    if rows == multiset{} then multiset{}
    else
      var r :| r in rows;
      multiset(r.parts) + Parts(rows - multiset{r})
  }

  lemma RemovalsCommute<T>(m: multiset<T>, x: T, y: T)
    ensures m - multiset{x} - multiset{y} == m - multiset{y} - multiset{x}
  {
  }

  lemma SumsCommute<T>(a: multiset<T>, b: multiset<T>, c: multiset<T>)
    ensures a + (b + c) == b + (a + c)
  {
  }

  lemma {:induction false} PartsRemove<R>(rows: multiset<Row<R>>, r: Row<R>)
    requires r in rows
    ensures Parts(rows) == multiset(r.parts) + Parts(rows - multiset{r})
    decreases |rows|
  {
    var q :| q in rows && Parts(rows) == multiset(q.parts) + Parts(rows - multiset{q});
    if q != r {
      PartsRemove(rows - multiset{q}, r);
      PartsRemove(rows - multiset{r}, q);
      RemovalsCommute(rows, q, r);
      SumsCommute(multiset(q.parts), multiset(r.parts), Parts(rows - multiset{q} - multiset{r}));
    }
  }

  lemma PartsAdd<R>(rows: multiset<Row<R>>, r: Row<R>)
    ensures Parts(rows + multiset{r}) == Parts(rows) + multiset(r.parts)
  {
    PartsRemove(rows + multiset{r}, r);
    assert rows + multiset{r} - multiset{r} == rows;
  }

  lemma {:induction false} PartsSum<R>(a: multiset<Row<R>>, b: multiset<Row<R>>)
    ensures Parts(a + b) == Parts(a) + Parts(b)
    decreases |b|
  {
    if b == multiset{} {
      assert a + b == a;
    } else {
      var r :| r in b;
      var b' := b - multiset{r};
      assert b == b' + multiset{r} && a + b == a + b' + multiset{r};
      PartsSum(a, b');
      PartsAdd(b', r);
      PartsAdd(a + b', r);
    }
  }

  /** Replacing a row by one that absorbed one more input. */
  lemma PartsReplace<R>(rows: multiset<Row<R>>, r: Row<R>, r': Row<R>, x: Input<R>)
    requires r in rows && r'.parts == r.parts + [x]
    ensures Parts(rows - multiset{r} + multiset{r'}) == Parts(rows) + multiset{x}
  {
    PartsRemove(rows, r);
    PartsAdd(rows - multiset{r}, r');
  }

  // The buffer.

  /** Each key sits in the shard its hash names, under the key its row carries. */
  ghost predicate Placed<R>(cfg: Config<R>, shards: seq<map<Bytes, Row<R>>>) {
    && |shards| == SHARD_COUNT
    && forall i, k {:trigger k in shards[i]} :: 0 <= i < SHARD_COUNT && k in shards[i] ==> cfg.shardOf(k) == i && shards[i][k].key == k
  }

  ghost predicate Keyed<R>(m: map<Bytes, Row<R>>) {
    forall k :: k in m ==> m[k].key == k
  }

  lemma PlacedKeyed<R>(cfg: Config<R>, shards: seq<map<Bytes, Row<R>>>, n: nat)
    requires Placed(cfg, shards) && n < SHARD_COUNT
    ensures Keyed(shards[n])
  {
    forall k | k in shards[n]
      ensures shards[n][k].key == k
    {
    }
  }

  lemma SetExchange<T>(s: set<T>, x: T, y: T)
    requires x in s && y !in s - {x}
    ensures multiset(s - {x} + {y}) == multiset(s) - multiset{x} + multiset{y}
  {
  }

  lemma SetInsert<T>(s: set<T>, x: T)
    requires x !in s
    ensures multiset(s + {x}) == multiset(s) + multiset{x}
  {
  }

  lemma ShardRowsInsert<R>(m: map<Bytes, Row<R>>, k: Bytes, row: Row<R>)
    requires Keyed(m) && row.key == k && k !in m
    ensures ShardRows(m[k := row]) == ShardRows(m) + multiset{row}
  {
    ValuesInsert(m, k, row);
    SetInsert(m.Values, row);
  }

  lemma ValuesInsert<R>(m: map<Bytes, Row<R>>, k: Bytes, row: Row<R>)
    requires Keyed(m) && row.key == k && k !in m
    ensures row !in m.Values && m[k := row].Values == m.Values + {row}
  {
    var m' := m[k := row];
    forall r | r in m.Values
      ensures r in m'.Values && r != row
    {
      var l :| l in m && m[l] == r;
      assert l in m' && m'[l] == r;
    }
    assert k in m' && m'[k] == row;
  }

  lemma ShardRowsReplace<R>(m: map<Bytes, Row<R>>, k: Bytes, row: Row<R>)
    requires Keyed(m) && row.key == k && k in m
    ensures m[k] in ShardRows(m)
    ensures ShardRows(m[k := row]) == ShardRows(m) - multiset{m[k]} + multiset{row}
  {
    var m', old' := m[k := row], m[k];
    assert forall l :: l in m && l != k ==> m'[l] == m[l] && m[l] != old' && m[l] != row;
    forall r
      ensures r in m'.Values <==> r in m.Values - {old'} + {row}
    {
      if r in m.Values - {old'} {
        var l :| l in m && m[l] == r;
        assert l in m' && m'[l] == r;
      } else if r == row {
        assert k in m' && m'[k] == r;
      }
    }
    assert m'.Values == m.Values - {old'} + {row};
    SetExchange(m.Values, old', row);
  }

  lemma ShardRowsSize<R>(m: map<Bytes, Row<R>>)
    requires Keyed(m)
    ensures |ShardRows(m)| == |m|
    decreases |m|
  {
    if m.Keys != {} {
      var k :| k in m;
      var m' := m - {k};
      assert m == m'[k := m[k]];
      ShardRowsSize(m');
      ShardRowsInsert(m', k, m[k]);
    } else {
      assert m == map[];
    }
  }
}
