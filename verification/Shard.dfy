/** pkg/bloom/shard.go: a stage's flat bitmap split over keys of ShardBits bits. */
module Shard {
  import opened Base

  const SHARD_BITS: nat := 33554432

  datatype ShardOffset = ShardOffset(shard: nat, offset: nat)

  function ShardOf(bitIndex: nat): nat {
    bitIndex / SHARD_BITS
  }

  function OffsetOf(bitIndex: nat): (o: nat)
    ensures o < SHARD_BITS
  {
    bitIndex % SHARD_BITS
  }

  function ShardFor(bitIndex: nat): ShardOffset {
    ShardOffset(ShardOf(bitIndex), OffsetOf(bitIndex))
  }

  function Flat(shard: nat, offset: nat): nat {
    shard * SHARD_BITS + offset
  }

  /** Splitting a bit index and joining it again are inverse, both ways. */
  lemma SplitJoin(bitIndex: nat, shard: nat, offset: nat)
    requires offset < SHARD_BITS
    ensures var so := ShardFor(bitIndex); so.offset < SHARD_BITS && Flat(so.shard, so.offset) == bitIndex
    ensures var so := ShardFor(bitIndex); so.offset < 33554432 && bitIndex == 33554432 * so.shard + so.offset
    ensures ShardFor(Flat(shard, offset)) == ShardOffset(shard, offset)
  {
  }

  /** The number of shard keys a stage of m bits can use, as Drop counts them. */
  function ShardCount(m: nat): nat {
    m / SHARD_BITS + if m % SHARD_BITS != 0 then 1 else 0
  }

  lemma ShardBelowCount(p: nat, m: nat)
    requires p < m
    ensures ShardOf(p) < ShardCount(m)
  {
  }

  /** Drop counts exactly the shards that some bit below m lies in. */
  lemma ShardCountExactly(m: nat, j: nat)
    ensures j < ShardCount(m) <==> exists p: nat :: p < m && ShardOf(p) == j
  {
    if j < ShardCount(m) {
      assert j * SHARD_BITS < m && ShardOf(j * SHARD_BITS) == j;
    }
    forall p: nat | p < m
      ensures ShardOf(p) < ShardCount(m)
    {
      ShardBelowCount(p, m);
    }
  }

  /** The offsets a position list has inside one shard, in list order. */
  function OffsetsIn(positions: seq<nat>, shard: nat): seq<nat> {
    if positions == [] then []
    else
      var front, last := positions[..|positions| - 1], positions[|positions| - 1];
      OffsetsIn(front, shard) + if ShardOf(last) == shard then [OffsetOf(last)] else []
  }

  function ShardsOf(positions: seq<nat>): set<nat> {
    set p | p in positions :: ShardOf(p)
  }

  /** What grouping means: exactly the shards hit, each with its offsets in order. */
  function GroupsOf(positions: seq<nat>): map<nat, seq<nat>> {
    map j | j in ShardsOf(positions) :: OffsetsIn(positions, j)
  }

  method GroupByShard(positions: seq<nat>) returns (groups: map<nat, seq<nat>>)
    ensures groups == GroupsOf(positions)
  {
    groups := map[];
    for i := 0 to |positions|
      invariant groups == GroupsOf(positions[..i])
    {
      var so := ShardFor(positions[i]);
      var before := if so.shard in groups then groups[so.shard] else [];
      groups := groups[so.shard := before + [so.offset]];
      GroupsSnoc(positions[..i], positions[i]);
      assert positions[..i + 1] == positions[..i] + [positions[i]];
    }
    assert positions[..|positions|] == positions;
  }

  lemma {:induction false} OffsetsOutside(positions: seq<nat>, shard: nat)
    requires shard !in ShardsOf(positions)
    ensures OffsetsIn(positions, shard) == []
  {
    if positions != [] {
      var front, last := positions[..|positions| - 1], positions[|positions| - 1];
      assert last in positions;
      assert forall p :: p in front ==> p in positions;
      OffsetsOutside(front, shard);
    }
  }

  lemma ShardsSnoc(front: seq<nat>, last: nat)
    ensures ShardsOf(front + [last]) == ShardsOf(front) + {ShardOf(last)}
  {
    var all := front + [last];
    assert last == all[|front|];
    forall p | p in front
      ensures ShardOf(p) in ShardsOf(all)
    {
      assert p in all;
    }
  }

  lemma GroupsSnoc(front: seq<nat>, last: nat)
    ensures var j := ShardOf(last);
      var g := GroupsOf(front);
      GroupsOf(front + [last]) == g[j := (if j in g then g[j] else []) + [OffsetOf(last)]]
  {
    var all, j := front + [last], ShardOf(last);
    assert all[..|all| - 1] == front;
    ShardsSnoc(front, last);
    if j !in ShardsOf(front) {
      OffsetsOutside(front, j);
    }
    var g := GroupsOf(front);
    var h := g[j := (if j in g then g[j] else []) + [OffsetOf(last)]];
    forall x | x in ShardsOf(all)
      ensures OffsetsIn(all, x) == h[x]
    {
      assert OffsetsIn(all, x) == OffsetsIn(front, x) + if j == x then [OffsetOf(last)] else [];
    }
    assert GroupsOf(all).Keys == h.Keys;
  }

  lemma {:induction false} OffsetsExact(positions: seq<nat>, shard: nat, offset: nat)
    ensures offset in OffsetsIn(positions, shard) <==> offset < SHARD_BITS && Flat(shard, offset) in positions
  {
    if positions != [] {
      var front, last := positions[..|positions| - 1], positions[|positions| - 1];
      OffsetsExact(front, shard, offset);
      assert positions == front + [last];
      SplitJoin(last, shard, if offset < SHARD_BITS then offset else 0);
    }
  }

  /** Grouping loses nothing and invents nothing: an offset is listed under a shard exactly when the
      flat index they denote was asked for, and no group is empty. */
  lemma GroupsExact(positions: seq<nat>, shard: nat, offset: nat)
    ensures var g := GroupsOf(positions);
      && (shard in g && offset in g[shard] <==> offset < SHARD_BITS && Flat(shard, offset) in positions)
      && (shard in g ==> g[shard] != [])
  {
    var g := GroupsOf(positions);
    OffsetsExact(positions, shard, offset);
    if offset < SHARD_BITS && Flat(shard, offset) in positions {
      SplitJoin(0, shard, offset);
      assert ShardOf(Flat(shard, offset)) == shard;
    }
    if shard in g {
      var p :| p in positions && ShardOf(p) == shard;
      SplitJoin(p, 0, 0);
      OffsetsExact(positions, shard, OffsetOf(p));
    }
  }

  /** at picks out the positions that lie in the shard, each once and in order, as group lists them. */
  predicate PicksOut(positions: seq<nat>, shard: nat, group: seq<nat>, at: seq<nat>) {
    && |at| == |group|
    && (forall t :: 0 <= t < |at| ==> at[t] < |positions| && positions[at[t]] == 33554432 * shard + group[t])
    && (forall t :: 0 < t < |at| ==> at[t - 1] < at[t])
    && (forall i :: 0 <= i < |positions| && ShardOf(positions[i]) == shard ==> i in at)
  }

  lemma PicksMore(positions: seq<nat>, last: nat, shard: nat, group: seq<nat>, at: seq<nat>)
    requires PicksOut(positions, shard, group, at)
    ensures ShardOf(last) != shard ==> PicksOut(positions + [last], shard, group, at)
    ensures ShardOf(last) == shard ==> PicksOut(positions + [last], shard, group + [OffsetOf(last)], at + [|positions|])
  {
    SplitJoin(last, 0, 0);
    var all, more := positions + [last], at + [|positions|];
    assert |positions| == more[|at|];
    forall i | 0 <= i < |positions| && ShardOf(all[i]) == shard
      ensures i in at && i in more
    {
      assert ShardOf(positions[i]) == shard;
      var t :| 0 <= t < |at| && at[t] == i;
      assert more[t] == i;
    }
  }

  lemma {:induction false} OffsetsPicked(positions: seq<nat>, shard: nat) returns (at: seq<nat>)
    ensures PicksOut(positions, shard, OffsetsIn(positions, shard), at)
  {
    at := [];
    if positions != [] {
      var front, last := positions[..|positions| - 1], positions[|positions| - 1];
      at := OffsetsPicked(front, shard);
      PicksMore(front, last, shard, OffsetsIn(front, shard), at);
      assert front + [last] == positions;
      if ShardOf(last) == shard {
        at := at + [|front|];
      }
    }
  }

  /** A group keeps the order and the duplicates of the positions it comes from. */
  lemma GroupsInOrder(positions: seq<nat>, shard: nat) returns (at: seq<nat>)
    requires shard in GroupsOf(positions)
    ensures PicksOut(positions, shard, GroupsOf(positions)[shard], at)
  {
    at := OffsetsPicked(positions, shard);
  }

  lemma PositionGrouped(positions: seq<nat>, p: nat)
    requires p in positions
    ensures ShardOf(p) in GroupsOf(positions) && OffsetOf(p) in GroupsOf(positions)[ShardOf(p)]
  {
    SplitJoin(p, 0, 0);
    GroupsExact(positions, ShardOf(p), OffsetOf(p));
  }

  /** The flat indices a group map denotes, over some of its shards. */
  function FlatGroups(groups: map<nat, seq<nat>>, shards: set<nat>): set<nat> {
    set j, o | j in shards && j in groups && o in groups[j] :: Flat(j, o)
  }

  lemma FlatOfGroups(positions: seq<nat>)
    ensures FlatGroups(GroupsOf(positions), GroupsOf(positions).Keys) == Elements(positions)
  {
    var g := GroupsOf(positions);
    forall q | q in FlatGroups(g, g.Keys)
      ensures q in positions
    {
      var j, o :| j in g && o in g[j] && q == Flat(j, o);
      GroupsExact(positions, j, o);
    }
    forall q | q in positions
      ensures q in FlatGroups(g, g.Keys)
    {
      PositionGrouped(positions, q);
      SplitJoin(q, 0, 0);
      assert q == Flat(ShardOf(q), OffsetOf(q));
    }
  }
}
