/** The reference meaning of the engine: a filter is its parameters and the list of items added.
    Stages, bits, counters and growth are all derived from that list. */
module Reference {
  import opened Base
  import opened Runtime
  import opened Sizing
  import opened Chain
  import opened Layout
  import opened Persist

  // ---------------------------------------------------------------- cutting items into stages

  function CapacityAt(cfg: Config, i: nat): nat {
    if cfg.plan(i).Ok? then cfg.plan(i).value.capacity else 0
  }

  predicate Sizable(cfg: Config, i: nat) {
    cfg.plan(i).Ok?
  }

  /** The items of stage i, i+1, ...: a stage takes items up to its capacity, except that the last
      stage whose successor cannot be sized takes all that remain. */
  ghost function Cut(cfg: Config, items: seq<Item>, i: nat): (c: seq<seq<Item>>)
    requires cfg.Sound() && cfg.plan(i).Ok?
    ensures c != []
    decreases |items|
  {
    var capacity := CapacityAt(cfg, i);
    if |items| < capacity || cfg.plan(i + 1).Err? then [items]
    else [items[..capacity]] + Cut(cfg, items[capacity..], i + 1)
  }

  function Flatten(parts: seq<seq<Item>>): seq<Item> {
    if parts == [] then [] else parts[0] + Flatten(parts[1..])
  }

  lemma {:induction false} CutFlattens(cfg: Config, items: seq<Item>, i: nat)
    requires cfg.Sound() && cfg.plan(i).Ok?
    ensures Flatten(Cut(cfg, items, i)) == items
    decreases |items|
  {
    var capacity := CapacityAt(cfg, i);
    var c := Cut(cfg, items, i);
    if |items| < capacity || cfg.plan(i + 1).Err? {
      assert c[1..] == [];
    } else {
      CutFlattens(cfg, items[capacity..], i + 1);
      assert c[1..] == Cut(cfg, items[capacity..], i + 1);
      assert items == items[..capacity] + items[capacity..];
    }
  }

  lemma {:induction false} CutFills(cfg: Config, items: seq<Item>, i: nat)
    requires cfg.Sound() && cfg.plan(i).Ok?
    ensures var c := Cut(cfg, items, i);
      && (forall j :: i <= j < i + |c| ==> Sizable(cfg, j))
      && (forall j :: 0 <= j < |c| - 1 ==> |c[j]| == CapacityAt(cfg, i + j))
      && (|c[|c| - 1]| < CapacityAt(cfg, i + |c| - 1) || cfg.plan(i + |c|).Err?)
    decreases |items|
  {
    var capacity := CapacityAt(cfg, i);
    var c := Cut(cfg, items, i);
    assert Sizable(cfg, i);
    if |items| >= capacity && cfg.plan(i + 1).Ok? {
      CutFills(cfg, items[capacity..], i + 1);
      var rest := Cut(cfg, items[capacity..], i + 1);
      assert c == [items[..capacity]] + rest;
      forall j | 0 <= j < |c| - 1
        ensures |c[j]| == CapacityAt(cfg, i + j)
      {
        if j > 0 {
          assert c[j] == rest[j - 1];
          assert |rest[j - 1]| == CapacityAt(cfg, i + 1 + (j - 1));
        }
      }
      assert c[|c| - 1] == rest[|rest| - 1];
    }
  }

  /** Cutting is exact: the parts make up the list, every part but the last fills its stage, and the
      last has room unless its stage can have no successor. */
  lemma CutExact(cfg: Config, items: seq<Item>, i: nat)
    requires cfg.Sound() && cfg.plan(i).Ok?
    ensures var c := Cut(cfg, items, i);
      && Flatten(c) == items
      && (forall j :: i <= j < i + |c| ==> Sizable(cfg, j))
      && (forall j :: 0 <= j < |c| - 1 ==> |c[j]| == CapacityAt(cfg, i + j))
      && (|c[|c| - 1]| < CapacityAt(cfg, i + |c| - 1) || cfg.plan(i + |c|).Err?)
  {
    hide Cut, Flatten;
    CutFlattens(cfg, items, i);
    CutFills(cfg, items, i);
  }

  /** Part j takes up where the capacities before it end. */
  lemma {:induction false} CutSlices(cfg: Config, items: seq<Item>, i: nat, j: nat)
    requires cfg.Sound() && cfg.plan(i).Ok? && j < |Cut(cfg, items, i)|
    ensures var low, part := CapacitySum(cfg, i + j) - CapacitySum(cfg, i), Cut(cfg, items, i)[j];
      0 <= low && low + |part| <= |items| && part == items[low..low + |part|]
    decreases |items|
  {
    var capacity := CapacityAt(cfg, i);
    if j > 0 {
      var rest := items[capacity..];
      assert Cut(cfg, items, i)[j] == Cut(cfg, rest, i + 1)[j - 1];
      FirstCapacities(cfg, i);
      hide Cut, CapacitySum, CapacityAt;
      CutSlices(cfg, rest, i + 1, j - 1);
      SliceOfRest(items, capacity, CapacitySum(cfg, i + j) - CapacitySum(cfg, i + 1), |Cut(cfg, rest, i + 1)[j - 1]|);
    }
  }

  lemma SliceOfRest<T>(s: seq<T>, drop: nat, low: nat, count: nat)
    requires drop <= |s| && low + count <= |s| - drop
    ensures s[drop..][low..low + count] == s[drop + low..drop + low + count]
  {
  }

  /** The parts after one more item: it goes to the last part, and a new empty part follows exactly
      when that fills a stage whose successor can be sized. */
  ghost function Snoc(cfg: Config, c: seq<seq<Item>>, i: nat, x: Item): seq<seq<Item>>
    requires c != []
  {
    var last := c[|c| - 1] + [x];
    var grown := c[..|c| - 1] + [last];
    if |last| < CapacityAt(cfg, i + |c| - 1) || cfg.plan(i + |c|).Err? then grown else grown + [[]]
  }

  lemma {:induction false} CutSnoc(cfg: Config, items: seq<Item>, i: nat, x: Item)
    requires cfg.Sound() && cfg.plan(i).Ok?
    ensures Cut(cfg, items + [x], i) == Snoc(cfg, Cut(cfg, items, i), i, x)
    decreases |items|
  {
    var capacity := CapacityAt(cfg, i);
    var c, more := Cut(cfg, items, i), items + [x];
    if |items| < capacity || cfg.plan(i + 1).Err? {
      assert c[..0] == [];
      if |more| >= capacity && cfg.plan(i + 1).Ok? {
        assert more[..capacity] == more && more[capacity..] == [];
        assert Cut(cfg, [], i + 1) == [[]];
      }
    } else {
      CutSnoc(cfg, items[capacity..], i + 1, x);
      assert more[..capacity] == items[..capacity];
      assert more[capacity..] == items[capacity..] + [x];
      SnocLater(cfg, items[..capacity], Cut(cfg, items[capacity..], i + 1), i, x);
    }
  }

  lemma SnocLater(cfg: Config, part: seq<Item>, rest: seq<seq<Item>>, i: nat, x: Item)
    requires rest != []
    ensures Snoc(cfg, [part] + rest, i, x) == [part] + Snoc(cfg, rest, i + 1, x)
  {
    var c := [part] + rest;
    assert c[..|c| - 1] == [part] + rest[..|rest| - 1];
    assert c[|c| - 1] == rest[|rest| - 1];
  }

  // ---------------------------------------------------------------- stages from items

  /** The union of the positions of a stage's items. */
  function BitsOf(cfg: Config, items: seq<Item>, m: nat, k: int): set<nat> {
    set x, q | x in items && q in cfg.targets(x, m, k) :: q
  }

  function Filled(cfg: Config, i: nat, items: seq<Item>): StageState
    requires Sizable(cfg, i)
  {
    var st := cfg.plan(i).value;
    StageState(st.m, st.k, st.capacity, |items|, BitsOf(cfg, items, st.m, st.k))
  }

  ghost function StagesOf(cfg: Config, items: seq<Item>): (ch: Stages)
    requires cfg.Sound() && cfg.plan(0).Ok?
    ensures |ch| == |Cut(cfg, items, 0)|
  {
    CutExact(cfg, items, 0);
    var c := Cut(cfg, items, 0);
    seq(|c|, i requires 0 <= i < |c| && Sizable(cfg, i) => Filled(cfg, i, c[i]))
  }

  /** Exact membership: the bit-level test over all stages holds of x exactly when, in some stage,
      every position of x is a position of an item added to that stage. */
  ghost predicate MaybeAdded(cfg: Config, items: seq<Item>, x: Item)
    requires cfg.Sound() && cfg.plan(0).Ok?
  {
    var c := Cut(cfg, items, 0);
    exists i :: 0 <= i < |c| && Collides(cfg, c[i], i, x)
  }

  predicate Collides(cfg: Config, part: seq<Item>, i: nat, x: Item) {
    cfg.plan(i).Ok? &&
    var st := cfg.plan(i).value;
    forall q :: q in cfg.targets(x, st.m, st.k) ==> exists y :: y in part && q in cfg.targets(y, st.m, st.k)
  }

  lemma HitExactly(cfg: Config, items: seq<Item>, x: Item, i: nat)
    requires cfg.Sound() && cfg.plan(0).Ok? && i < |Cut(cfg, items, 0)|
    ensures cfg.Hit(x, StagesOf(cfg, items)[i]) <==> Collides(cfg, Cut(cfg, items, 0)[i], i, x)
  {
    StagesOfAt(cfg, items);
    hide Cut, StagesOf;
    assert Sizable(cfg, i) && StagesOf(cfg, items)[i] == Filled(cfg, i, Cut(cfg, items, 0)[i]);
  }

  lemma MembershipExact(cfg: Config, items: seq<Item>, x: Item)
    requires cfg.Sound() && cfg.plan(0).Ok?
    ensures cfg.Member(x, StagesOf(cfg, items)) <==> MaybeAdded(cfg, items, x)
  {
    hide Cut, StagesOf, Collides;
    var ch := StagesOf(cfg, items);
    forall i | 0 <= i < |ch|
      ensures cfg.Hit(x, ch[i]) <==> Collides(cfg, Cut(cfg, items, 0)[i], i, x)
    {
      HitExactly(cfg, items, x, i);
    }
  }

  /** Through a handle that knows the first stages only, the answer is exact for those stages. */
  lemma KnownStagesExactly(cfg: Config, items: seq<Item>, x: Item, known: nat)
    requires cfg.Sound() && cfg.plan(0).Ok? && known <= |Cut(cfg, items, 0)|
    ensures cfg.Member(x, StagesOf(cfg, items)[..known]) <==>
      exists i :: 0 <= i < known && Collides(cfg, Cut(cfg, items, 0)[i], i, x)
  {
    hide Cut, StagesOf, Collides;
    var c, ch := Cut(cfg, items, 0), StagesOf(cfg, items);
    forall i | 0 <= i < known
      ensures cfg.Hit(x, ch[..known][i]) <==> Collides(cfg, c[i], i, x)
    {
      HitExactly(cfg, items, x, i);
    }
    if i :| 0 <= i < known && Collides(cfg, c[i], i, x) {
      assert cfg.Hit(x, ch[..known][i]);
    }
  }

  lemma {:induction false} FlattenFinds(parts: seq<seq<Item>>, x: Item) returns (i: nat)
    requires x in Flatten(parts)
    ensures i < |parts| && x in parts[i]
  {
    if x in parts[0] {
      i := 0;
    } else {
      var j := FlattenFinds(parts[1..], x);
      i := j + 1;
    }
  }

  /** No false negatives, sequentially: an item that was added is always found. */
  lemma OwnPartCollides(cfg: Config, part: seq<Item>, i: nat, x: Item)
    requires cfg.plan(i).Ok? && x in part
    ensures Collides(cfg, part, i, x)
  {
  }

  lemma AddedIsFound(cfg: Config, items: seq<Item>, x: Item)
    requires cfg.Sound() && cfg.plan(0).Ok? && x in items
    ensures MaybeAdded(cfg, items, x)
  {
    CutExact(cfg, items, 0);
    hide Cut, Collides, Flatten;
    var c := Cut(cfg, items, 0);
    var i := FlattenFinds(c, x);
    assert Sizable(cfg, i);
    OwnPartCollides(cfg, c[i], i, x);
  }

  /** Exactly when an added item is missed: a handle that knows the first stages only answers false
      if and only if the item collides in none of them; then the handle is shorter than the chain,
      and the item was added to none of the stages it knows. */
  lemma MissedExactly(cfg: Config, items: seq<Item>, x: Item, known: nat)
    requires cfg.Sound() && cfg.plan(0).Ok? && x in items && known <= |Cut(cfg, items, 0)|
    ensures var c, missed := Cut(cfg, items, 0), !cfg.Member(x, StagesOf(cfg, items)[..known]);
      && (missed <==> forall i :: 0 <= i < known ==> !Collides(cfg, c[i], i, x))
      && (missed ==> known < |c| && forall i :: 0 <= i < known ==> x !in c[i])
  {
    CutExact(cfg, items, 0);
    hide Cut, StagesOf, Collides, Flatten;
    KnownStagesExactly(cfg, items, x, known);
    var c := Cut(cfg, items, 0);
    forall i | 0 <= i < |c| && x in c[i]
      ensures Collides(cfg, c[i], i, x)
    {
      assert Sizable(cfg, i);
      OwnPartCollides(cfg, c[i], i, x);
    }
    var j := FlattenFinds(c, x);
  }

  lemma {:induction false} LongEnough(cfg: Config, items: seq<Item>, start: nat, count: nat)
    requires cfg.Sound() && forall j :: start <= j <= start + count ==> Sizable(cfg, j)
    requires |items| >= CapacitySum(cfg, start + count) - CapacitySum(cfg, start)
    ensures cfg.plan(start).Ok? && |Cut(cfg, items, start)| > count
    decreases count
  {
    assert Sizable(cfg, start);
    if count > 0 {
      assert Sizable(cfg, start + 1);
      CapacitySumGrows(cfg, start + 1, start + count);
      LongEnough(cfg, items[CapacityAt(cfg, start)..], start + 1, count - 1);
    }
  }

  lemma {:induction false} CapacitySumGrows(cfg: Config, i: nat, j: nat)
    requires i <= j
    ensures CapacitySum(cfg, i) <= CapacitySum(cfg, j)
  {
    if i < j {
      CapacitySumGrows(cfg, i, j - 1);
    }
  }

  /** The stages a filter can get are exactly those some items take it to. */
  lemma AttainableExactly(env: Env, n: nat, p: real, i: nat)
    requires env.Sound() && ConfigOf(env, n, p).Sound() && ConfigOf(env, n, p).plan(0).Ok?
    ensures Attainable(env, n, p, i) <==> exists items: seq<Item> :: i < |StagesOf(ConfigOf(env, n, p), items)|
  {
    hide ConfigOf;
    var cfg := ConfigOf(env, n, p);
    if Attainable(env, n, p, i) {
      var items: seq<Item> := seq(CapacitySum(cfg, i), _ => []);
      forall j | 0 <= j <= i
        ensures Sizable(cfg, j)
      {
      }
      LongEnough(cfg, items, 0, i);
      assert i < |StagesOf(cfg, items)|;
    }
    if items: seq<Item> :| i < |StagesOf(cfg, items)| {
      CutFills(cfg, items, 0);
      forall j: nat | j <= i
        ensures cfg.plan(j).Ok?
      {
        assert Sizable(cfg, j);
      }
    }
  }

  // ---------------------------------------------------------------- Add on a chain

  function AddBitsOf(cfg: Config, ch: Stages, i: nat, st: Stage, x: Item): Stages
    requires i < |ch|
  {
    AddBits(ch, i, Elements(cfg.targets(x, st.m, st.k)))
  }

  /** Filter.Add on a store chain, through a handle that may be out of date: the chain and the
      handle's stage list after it, and whether growth failed. */
  function AddOf(cfg: Config, ch: Stages, handle: seq<Stage>, x: Item): (Result<()>, Stages, seq<Stage>)
    requires 0 < |handle| <= |ch|
  {
    var i := |handle| - 1;
    var ch1 := Bump(AddBitsOf(cfg, ch, i, handle[i], x), i);
    var handle1 := handle[i := handle[i].(fill := ch1[i].fill)];
    if ch1[i].fill < handle[i].capacity then (Ok(()), ch1, handle1)
    else
      var plan := cfg.plan(|handle|);
      if plan.Err? then (Err(plan.error), ch1, handle1)
      else
        var (count, ch2) := Append(ch1, |handle|, plan.value);
        (Ok(()), ch2, if count > |handle| + 1 then HandleStages(ch2) else handle1 + [plan.value])
  }

  /** What Add returns once the list holds the new item: an error exactly when the last stage is
      full and its successor cannot be sized. */
  ghost function AddResult(cfg: Config, items: seq<Item>): Result<()>
    requires cfg.Sound() && cfg.plan(0).Ok?
  {
    var c := Cut(cfg, items, 0);
    var plan := cfg.plan(|c|);
    if |c[|c| - 1]| < CapacityAt(cfg, |c| - 1) then Ok(())
    else if plan.Err? then Err(plan.error) else Ok(())
  }

  /** Exactly when Add reports an error: the item before it left its stage one short of capacity, or
      full already, and the next stage cannot be sized. */
  lemma AddResultExactly(cfg: Config, items: seq<Item>, x: Item)
    requires cfg.Sound() && cfg.plan(0).Ok?
    ensures var c, r := Cut(cfg, items, 0), AddResult(cfg, items + [x]);
      && (r.Err? <==> |c[|c| - 1]| + 1 >= CapacityAt(cfg, |c| - 1) && cfg.plan(|c|).Err?)
      && (r.Err? ==> r.error == cfg.plan(|c|).error)
  {
    CutSnoc(cfg, items, 0, x);
    hide Cut;
    var c := Cut(cfg, items, 0);
    assert cfg.plan(|c|).Ok? ==> CapacityAt(cfg, |c|) > 0;
  }

  lemma BitsOfSnoc(cfg: Config, items: seq<Item>, x: Item, m: nat, k: int)
    ensures BitsOf(cfg, items + [x], m, k) == BitsOf(cfg, items, m, k) + Elements(cfg.targets(x, m, k))
  {
    var more := items + [x];
    assert forall y :: y in more <==> y in items || y == x by {
      assert x == more[|items|];
      forall y | y in items
        ensures y in more
      {
        var i :| 0 <= i < |items| && items[i] == y;
        assert more[i] == y;
      }
    }
  }

  /** Writing x into the newest stage: its bits and its counter are those of one more item. */
  lemma NewestAfterAdd(cfg: Config, items: seq<Item>, x: Item)
    requires cfg.Sound() && cfg.plan(0).Ok?
    ensures var c, ch := Cut(cfg, items, 0), StagesOf(cfg, items);
      var i := |c| - 1;
      && Sizable(cfg, i)
      && Bump(AddBitsOf(cfg, ch, i, HandleStages(ch)[i], x), i) == ch[i := Filled(cfg, i, c[i] + [x])]
      && ch[i].capacity == CapacityAt(cfg, i)
      && Filled(cfg, i, c[i] + [x]).fill == |c[i]| + 1
  {
    var c := Cut(cfg, items, 0);
    CutExact(cfg, items, 0);
    var i := |c| - 1;
    assert Sizable(cfg, i);
    BitsOfSnoc(cfg, c[i], x, cfg.plan(i).value.m, cfg.plan(i).value.k);
  }

  lemma StagesOfParts(cfg: Config, items: seq<Item>, ch: Stages)
    requires cfg.Sound() && cfg.plan(0).Ok? && PartsMatch(cfg, Cut(cfg, items, 0), ch)
    ensures ch == StagesOf(cfg, items)
  {
    CutExact(cfg, items, 0);
  }

  lemma EmptyFilled(cfg: Config, i: nat)
    requires Sizable(cfg, i)
    ensures Filled(cfg, i, []) == Fresh(cfg.plan(i).value)
  {
    assert BitsOf(cfg, [], cfg.plan(i).value.m, cfg.plan(i).value.k) == {};
  }

  /** The growing chain refines the plain list: Add through a current handle is appending x. */
  lemma AddIsAppend(cfg: Config, items: seq<Item>, x: Item)
    requires cfg.Sound() && cfg.plan(0).Ok?
    ensures var ch := StagesOf(cfg, items);
      var (r, ch', _) := AddOf(cfg, ch, HandleStages(ch), x);
      ch' == StagesOf(cfg, items + [x]) && r == AddResult(cfg, items + [x])
  {
    hide Cut, StagesOf, Bump, AddBitsOf, Filled, AddOf, Flatten;
    StagesOfAt(cfg, items);
    NewestAfterAdd(cfg, items, x);
    CutExact(cfg, items + [x], 0);
    CutSnoc(cfg, items, 0, x);
    var c, ch := Cut(cfg, items, 0), StagesOf(cfg, items);
    var filled := Filled(cfg, |c| - 1, c[|c| - 1] + [x]);
    AddOfCurrent(cfg, ch, x, filled);
    var ch' := AddOf(cfg, ch, HandleStages(ch), x).1;
    PartsAfterAdd(cfg, c, ch, x, ch', Cut(cfg, items + [x], 0));
    StagesOfParts(cfg, items + [x], ch');
    if cfg.plan(|c|).Ok? {
      assert CapacityAt(cfg, |c|) > 0;
    }
  }

  /** Add through a current handle, given what its writes make of the newest stage. */
  lemma AddOfCurrent(cfg: Config, ch: Stages, x: Item, filled: StageState)
    requires ch != []
    requires var i := |ch| - 1; Bump(AddBitsOf(cfg, ch, i, HandleStages(ch)[i], x), i) == ch[i := filled]
    ensures var (r, ch', _) := AddOf(cfg, ch, HandleStages(ch), x);
      var i, plan := |ch| - 1, cfg.plan(|ch|);
      if filled.fill < ch[i].capacity then (r, ch') == (Ok(()), ch[i := filled])
      else if plan.Err? then (r, ch') == (Err(plan.error), ch[i := filled])
      else (r, ch') == (Ok(()), ch[i := filled] + [Fresh(plan.value)])
  {
    hide Bump, AddBitsOf;
  }

  predicate PartsMatch(cfg: Config, c: seq<seq<Item>>, ch: Stages) {
    |ch| == |c| && forall j :: 0 <= j < |c| ==> Sizable(cfg, j) && ch[j] == Filled(cfg, j, c[j])
  }

  lemma PartsAfterAdd(cfg: Config, c: seq<seq<Item>>, ch: Stages, x: Item, ch': Stages, c': seq<seq<Item>>)
    requires cfg.Sound() && c != [] && PartsMatch(cfg, c, ch) && c' == Snoc(cfg, c, 0, x)
    requires var i := |c| - 1;
      var ch1 := ch[i := Filled(cfg, i, c[i] + [x])];
      ch' == if |c[i]| + 1 < CapacityAt(cfg, i) || cfg.plan(i + 1).Err? then ch1
             else ch1 + [Fresh(cfg.plan(i + 1).value)]
    ensures PartsMatch(cfg, c', ch')
  {
    var i := |c| - 1;
    if |c'| > |c| {
      assert Sizable(cfg, i + 1);
      EmptyFilled(cfg, i + 1);
    }
    hide Filled;
    forall j | 0 <= j < |c'|
      ensures Sizable(cfg, j) && ch'[j] == Filled(cfg, j, c'[j])
    {
      if j < i {
        assert c'[j] == c[j] && ch'[j] == ch[j];
      }
    }
  }

  lemma StagesOfAt(cfg: Config, items: seq<Item>)
    requires cfg.Sound() && cfg.plan(0).Ok?
    ensures var c, ch := Cut(cfg, items, 0), StagesOf(cfg, items);
      PartsMatch(cfg, c, ch)
  {
    CutExact(cfg, items, 0);
  }

  // ---------------------------------------------------------------- exact stage count

  /** Total capacity of the first count stages. */
  function CapacitySum(cfg: Config, count: nat): nat {
    if count == 0 then 0 else CapacitySum(cfg, count - 1) + CapacityAt(cfg, count - 1)
  }

  lemma {:induction false} FlattenLength(cfg: Config, c: seq<seq<Item>>, skip: nat)
    requires skip <= |c|
    requires forall j :: skip <= j < |c| - 1 ==> |c[j]| == CapacityAt(cfg, j)
    ensures c[skip..] != [] ==> |Flatten(c[skip..])| == CapacitySum(cfg, |c| - 1) - CapacitySum(cfg, skip) + |c[|c| - 1]|
    decreases |c| - skip
  {
    if skip < |c| {
      assert c[skip..][1..] == c[skip + 1..];
      FlattenLength(cfg, c, skip + 1);
      if skip + 1 == |c| {
        assert Flatten(c[skip + 1..]) == [];
      }
    }
  }

  lemma CapacityOf(env: Env, n: nat, p: real, i: nat)
    requires env.Sound() && Sizable(ConfigOf(env, n, p), i)
    ensures CapacityAt(ConfigOf(env, n, p), i) == n * Pow2(i)
  {
    assert ConfigOf(env, n, p).plan(i) == ComputeStage(env, n, p, DEFAULT_R, DEFAULT_S, i);
    AtMost64Stages(env, n, p, i);
  }

  lemma Doubled(n: nat, a: nat)
    ensures n * (a - 1) + n * a == n * (2 * a - 1)
  {
  }

  lemma {:induction false} GeometricSum(env: Env, n: nat, p: real, count: nat)
    requires env.Sound()
    requires forall i :: 0 <= i < count ==> Sizable(ConfigOf(env, n, p), i)
    ensures CapacitySum(ConfigOf(env, n, p), count) == n * (Pow2(count) - 1)
  {
    hide ConfigOf, CapacityAt;
    if count > 0 {
      GeometricSum(env, n, p, count - 1);
      CapacityOf(env, n, p, count - 1);
      Doubled(n, Pow2(count - 1));
    }
  }

  lemma FirstCapacities(cfg: Config, count: nat)
    ensures CapacitySum(cfg, 0) == 0 && CapacitySum(cfg, count + 1) == CapacitySum(cfg, count) + CapacityAt(cfg, count)
  {
  }

  /** After N adds, duplicates counted, the stages number exactly the L with
      n (2^(L-1) - 1) <= N < n (2^L - 1); the upper bound needs the next stage to be sizable. */
  lemma ExactStageCount(env: Env, n: nat, p: real, items: seq<Item>)
    requires env.Sound() && ConfigOf(env, n, p).Sound() && ConfigOf(env, n, p).plan(0).Ok?
    ensures var cfg := ConfigOf(env, n, p);
      var count := |StagesOf(cfg, items)|;
      && n * (Pow2(count - 1) - 1) <= |items|
      && (|items| < n * (Pow2(count) - 1) || cfg.plan(count).Err?)
      && forall i :: 0 <= i < count - 1 ==> StagesOf(cfg, items)[i].fill == n * Pow2(i)
  {
    hide ConfigOf, Cut, StagesOf, Flatten, CapacityAt, Pow2, CapacitySum;
    var cfg := ConfigOf(env, n, p);
    var c := Cut(cfg, items, 0);
    CutExact(cfg, items, 0);
    StagesOfAt(cfg, items);
    FlattenLength(cfg, c, 0);
    assert c[0..] == c;
    GeometricSum(env, n, p, |c| - 1);
    GeometricSum(env, n, p, |c|);
    FirstCapacities(cfg, |c| - 1);
    forall i | 0 <= i < |c| - 1
      ensures StagesOf(cfg, items)[i].fill == n * Pow2(i)
    {
      assert Sizable(cfg, i) && |c[i]| == CapacityAt(cfg, 0 + i);
      CapacityOf(env, n, p, i);
    }
  }

  lemma {:induction false} Pow2Monotone(a: nat, b: nat)
    requires a <= b
    ensures Pow2(a) <= Pow2(b)
  {
    if a < b {
      Pow2Monotone(a, b - 1);
    }
  }

  lemma ScaledUp(n: nat, a: int, b: int)
    requires a <= b
    ensures n * a <= n * b
  {
  }

  /** The stage count is the only number with those bounds. */
  lemma StageCountUnique(n: nat, total: nat, a: nat, b: nat)
    requires a >= 1 && b >= 1
    requires n * (Pow2(a - 1) - 1) <= total < n * (Pow2(a) - 1)
    requires n * (Pow2(b - 1) - 1) <= total < n * (Pow2(b) - 1)
    ensures a == b
  {
    if a < b {
      Pow2Monotone(a, b - 1);
      ScaledUp(n, Pow2(a) - 1, Pow2(b - 1) - 1);
    } else if b < a {
      Pow2Monotone(b, a - 1);
      ScaledUp(n, Pow2(b) - 1, Pow2(a - 1) - 1);
    }
  }
}
