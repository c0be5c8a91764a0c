/** The lock-striped map as heap objects: sixteen shards, each a map from key to a cell holding a struct,
    proved against one flat map. */
module ShardedMaps {
  import opened Sequences
  import opened Keys
  import opened FlatBuffer

  const SHARD_COUNT: nat := 16

  /** A hash masked to a shard number. Nothing else of the hash matters to the map. */
  ghost predicate MasksToShard(shardOf: Bytes -> nat) {
    forall k :: shardOf(k) < SHARD_COUNT
  }

  /** A heap-allocated struct, as pointed to by the shard maps. */
  class Cell<T> {
    var m: T

    constructor (m: T)
      ensures this.m == m
    {
      this.m := m;
    }
  }

  class Shard<T> {
    var items: map<Bytes, Cell<T>>

    constructor ()
      ensures items == map[]
    {
      items := map[];
    }
  }

  /** `order` lists the keys of `m` without repetition and `values` are the values found under them. */
  ghost predicate Enumerates<T>(m: map<Bytes, T>, order: seq<Bytes>, values: seq<T>) {
    && |order| == |values|
    && (forall i, j :: 0 <= i < j < |order| ==> order[i] != order[j])
    && (forall k :: k in order <==> k in m)
    && (forall i :: 0 <= i < |order| ==> order[i] in m && values[i] == m[order[i]])
  }

  class ShardedMap<T> {
    const shardOf: Bytes -> nat
    const shards: seq<Shard<T>>
    /** All shards seen as one map from key to cell. */
    ghost var Cells: map<Bytes, Cell<T>>

    /** Each shard holds exactly the keys its number is the hash of; cells are not shared between keys. */
    ghost predicate Valid()
      reads this, shards
    {
      && |shards| == SHARD_COUNT && MasksToShard(shardOf)
      && (forall i, j :: 0 <= i < j < SHARD_COUNT ==> shards[i] != shards[j])
      && (forall i :: 0 <= i < SHARD_COUNT ==> shards[i].items == Slice(Cells, shardOf, i))
      && (forall k, l :: k in Cells && l in Cells && k != l ==> Cells[k] != Cells[l])
    }

    /** The flat view: every key with the struct stored under it. */
    ghost function Contents(): (m: map<Bytes, T>)
      reads this, Cells.Values
      ensures m.Keys == Cells.Keys
    {
      map k | k in Cells :: Cells[k].m
    }

    constructor (shardOf: Bytes -> nat)
      requires MasksToShard(shardOf)
      ensures Valid() && fresh(shards) && Cells == map[] && this.shardOf == shardOf
    {
      var made: seq<Shard<T>> := [];
      while |made| < SHARD_COUNT
        invariant |made| <= SHARD_COUNT
        invariant forall i :: 0 <= i < |made| ==> made[i].items == map[] && fresh(made[i])
        invariant forall i, j :: 0 <= i < j < |made| ==> made[i] != made[j]
      {
        var s := new Shard<T>();
        made := made + [s];
      }
      this.shardOf := shardOf;
      shards := made;
      Cells := map[];
    }

    function GetShard(key: Bytes): (s: Shard<T>)
      requires |shards| == SHARD_COUNT && shardOf(key) < SHARD_COUNT
      ensures s in shards
    {
      shards[shardOf(key)]
    }

    method Get(key: Bytes) returns (cell: Option<Cell<T>>)
      requires Valid()
      ensures cell == Lookup(Cells, key)
      ensures cell.Some? <==> key in Contents()
      ensures cell.Some? ==> cell.value.m == Contents()[key]
    {
      var shard := GetShard(key);
      assert shard.items == Slice(Cells, shardOf, shardOf(key));
      cell := Lookup(shard.items, key);
    }

    method Set(key: Bytes, cell: Cell<T>)
      requires Valid()
      requires cell !in Cells.Values
      modifies this`Cells, GetShard(key)
      ensures Valid() && Cells == old(Cells)[key := cell]
    {
      var shard := GetShard(key);
      shard.items := shard.items[key := cell];
      SliceUpdate(Cells, shardOf, key, cell);
      Cells := Cells[key := cell];
    }

    /** Removes one key and returns what was stored under it. */
    method Swap(key: Bytes) returns (was: Option<Cell<T>>)
      requires Valid()
      modifies this`Cells, GetShard(key)
      ensures Valid() && Cells == old(Cells) - {key}
      ensures was == Lookup(old(Cells), key)
    {
      var shard := GetShard(key);
      assert shard.items == Slice(Cells, shardOf, shardOf(key));
      was := Lookup(shard.items, key);
      shard.items := shard.items - {key};
      SliceRemove(Cells, shardOf, {key});
      Cells := Cells - {key};
    }

    lemma ItemsAreSlice(i: nat)
      requires Valid() && i < SHARD_COUNT
      ensures shards[i].items == Slice(Cells, shardOf, i)
    {
    }

    lemma SizeStep(i: nat)
      requires Valid() && i < SHARD_COUNT
      ensures |Prefix(Cells, shardOf, i + 1)| == |Prefix(Cells, shardOf, i)| + |shards[i].items|
    {
      ItemsAreSlice(i);
      PrefixSizeStep(Cells, shardOf, i);
    }

    /** Sums the shard sizes. */
    method Len() returns (total: nat)
      requires Valid()
      ensures total == |Contents()|
    {
      total := 0;
      PrefixSizeEnds(Cells, shardOf);
      for i := 0 to SHARD_COUNT
        invariant total == |Prefix(Cells, shardOf, i)|
      {
        SizeStep(i);
        total := total + |shards[i].items|;
      }
      SameKeysSameSize(Cells, Contents());
    }

    /** Empties one shard and copies its structs out. */
    method DrainShard(i: nat) returns (values: seq<T>, ghost order: seq<Bytes>)
      requires Valid() && i < SHARD_COUNT
      modifies this`Cells, shards[i]
      ensures Valid()
      ensures Cells == old(Cells) - Slice(old(Cells), shardOf, i).Keys
      ensures CellsEnumerated(Slice(old(Cells), shardOf, i), order, values)
    {
      values, order := [], [];
      var shard := shards[i];
      ghost var part := Slice(Cells, shardOf, i);
      if |shard.items| > 0 {
        values, order := CopyOut(shard.items);
        shard.items := map[];
      }
      SliceRemove(Cells, shardOf, part.Keys);
      Cells := Cells - part.Keys;
      assert Slice(Cells, shardOf, i) == map[];
    }

    /** Empties every shard in turn and returns the structs: each key exactly once. */
    method SwapAll() returns (result: seq<T>, ghost order: seq<Bytes>)
      requires Valid()
      modifies this`Cells, shards
      ensures Valid() && Cells == map[]
      ensures Enumerates(old(Contents()), order, result)
    {
      result, order := [], [];
      ghost var all, was := Cells, Contents();
      PrefixEnds(all, shardOf);
      for i := 0 to SHARD_COUNT
        invariant Valid()
        invariant Cells == all - Prefix(all, shardOf, i).Keys
        invariant forall k :: k in all ==> all[k].m == was[k]
        invariant CellsEnumerated(Prefix(all, shardOf, i), order, result)
      {
        RemainingStep(all, shardOf, i);
        var values, ks := DrainShard(i);
        DrainedStep(all, shardOf, i, order, result, ks, values);
        result := result + values;
        order := order + ks;
      }
      assert Cells == map[];
    }
  }

  /** `order` lists the keys of `cells` without repetition, and `values` are the structs in those cells. */
  ghost predicate CellsEnumerated<T>(cells: map<Bytes, Cell<T>>, order: seq<Bytes>, values: seq<T>)
    reads cells.Values
  {
    && |order| == |values|
    && (forall i, j :: 0 <= i < j < |order| ==> order[i] != order[j])
    && (forall k :: k in order <==> k in cells)
    && (forall i :: 0 <= i < |order| ==> order[i] in cells && values[i] == cells[order[i]].m)
  }

  /** Copies the structs out of a shard's cells, in whatever order the map is iterated. */
  method CopyOut<T>(items: map<Bytes, Cell<T>>) returns (values: seq<T>, ghost order: seq<Bytes>)
    ensures CellsEnumerated(items, order, values)
  {
    values, order := [], [];
    var todo := items.Keys;
    while todo != {}
      invariant todo <= items.Keys
      invariant |order| == |values|
      invariant forall j :: 0 <= j < |order| ==> order[j] in items && order[j] !in todo && values[j] == items[order[j]].m
      invariant forall j, l :: 0 <= j < l < |order| ==> order[j] != order[l]
      invariant forall k :: k in items ==> k in todo || k in order
    {
      var k :| k in todo;
      values := values + [items[k].m];
      order := order + [k];
      todo := todo - {k};
    }
  }

  /** The part of a flat map that lies in shard `i`. */
  ghost function Slice<T>(m: map<Bytes, T>, shardOf: Bytes -> nat, i: nat): map<Bytes, T> {
    map k | k in m && shardOf(k) == i :: m[k]
  }

  /** The part of a flat map that lies in the shards before `n`. */
  ghost function Prefix<T>(m: map<Bytes, T>, shardOf: Bytes -> nat, n: nat): map<Bytes, T> {
    map k | k in m && shardOf(k) < n :: m[k]
  }

  lemma SameKeysSameSize<T, U>(m: map<Bytes, T>, m': map<Bytes, U>)
    requires m.Keys == m'.Keys
    ensures |m| == |m'|
  {
    assert |m| == |m.Keys| && |m'| == |m'.Keys|;
  }

  lemma SliceUpdate<T>(m: map<Bytes, T>, shardOf: Bytes -> nat, key: Bytes, v: T)
    ensures forall i: nat :: Slice(m[key := v], shardOf, i) ==
                          if i == shardOf(key) then Slice(m, shardOf, i)[key := v] else Slice(m, shardOf, i)
  {
  }

  lemma SliceRemove<T>(m: map<Bytes, T>, shardOf: Bytes -> nat, keys: set<Bytes>)
    ensures forall i: nat :: Slice(m - keys, shardOf, i) == Slice(m, shardOf, i) - keys
    ensures forall i: nat :: keys !! Slice(m, shardOf, i).Keys ==>
                               Slice(m - keys, shardOf, i) == Slice(m, shardOf, i)
  {
  }

  lemma PrefixEnds<T>(m: map<Bytes, T>, shardOf: Bytes -> nat)
    requires MasksToShard(shardOf)
    ensures Prefix(m, shardOf, 0) == map[] && Prefix(m, shardOf, SHARD_COUNT) == m
    ensures m - Prefix(m, shardOf, 0).Keys == m && m - m.Keys == map[]
  {
  }

  lemma PrefixStep<T>(m: map<Bytes, T>, shardOf: Bytes -> nat, i: nat)
    ensures Prefix(m, shardOf, i + 1) == Prefix(m, shardOf, i) + Slice(m, shardOf, i)
    ensures Prefix(m, shardOf, i).Keys !! Slice(m, shardOf, i).Keys
  {
  }

  lemma PrefixSizeEnds<T>(m: map<Bytes, T>, shardOf: Bytes -> nat)
    requires MasksToShard(shardOf)
    ensures |Prefix(m, shardOf, 0)| == 0 && |Prefix(m, shardOf, SHARD_COUNT)| == |m|
  {
    PrefixEnds(m, shardOf);
  }

  lemma PrefixSizeStep<T>(m: map<Bytes, T>, shardOf: Bytes -> nat, i: nat)
    ensures |Prefix(m, shardOf, i + 1)| == |Prefix(m, shardOf, i)| + |Slice(m, shardOf, i)|
  {
    PrefixStep(m, shardOf, i);
    var a, b := Prefix(m, shardOf, i), Slice(m, shardOf, i);
    assert (a + b).Keys == a.Keys + b.Keys;
    assert |a.Keys + b.Keys| == |a.Keys| + |b.Keys|;
  }

  lemma RemainingStep<T>(all: map<Bytes, T>, shardOf: Bytes -> nat, i: nat)
    ensures var rest := all - Prefix(all, shardOf, i).Keys;
            && Slice(rest, shardOf, i) == Slice(all, shardOf, i)
            && rest - Slice(rest, shardOf, i).Keys == all - Prefix(all, shardOf, i + 1).Keys
  {
  }

  lemma DrainedStep<T>(all: map<Bytes, Cell<T>>, shardOf: Bytes -> nat, i: nat, order: seq<Bytes>, values: seq<T>,
                       order': seq<Bytes>, values': seq<T>)
    requires CellsEnumerated(Prefix(all, shardOf, i), order, values)
    requires CellsEnumerated(Slice(all, shardOf, i), order', values')
    ensures CellsEnumerated(Prefix(all, shardOf, i + 1), order + order', values + values')
  {
    PrefixStep(all, shardOf, i);
    EnumeratesJoin(Prefix(all, shardOf, i), order, values, Slice(all, shardOf, i), order', values');
  }

  lemma EnumeratesJoin<T>(m: map<Bytes, Cell<T>>, order: seq<Bytes>, values: seq<T>,
                          m': map<Bytes, Cell<T>>, order': seq<Bytes>, values': seq<T>)
    requires m.Keys !! m'.Keys
    requires CellsEnumerated(m, order, values) && CellsEnumerated(m', order', values')
    ensures CellsEnumerated(m + m', order + order', values + values')
  {
    forall i, j | 0 <= i < j < |order + order'|
      ensures (order + order')[i] != (order + order')[j]
    {
      if i < |order| <= j {
        assert order[i] in m && order'[j - |order|] in m';
      }
    }
  }
}
