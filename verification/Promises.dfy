/** What a caller of the service gets, call by call, in plain numbers: n, p, the items added, and the
    hash and the logarithm themselves. Nothing here is stated through the functions the engine or the
    reference service computes with. */
module Promises {
  import opened Base
  import opened Runtime
  import opened Hashing
  import opened Decimal
  import opened Store
  import opened Sizing
  import opened Chain
  import opened Layout
  import opened Persist
  import opened Reference
  import opened Engine
  import opened Service
  import opened Keys
  import opened Runs

  // ---------------------------------------------------------------- stages

  predicate RoundsDown(x: real, c: nat) {
    c as real <= x < c as real + 1.0
  }

  /** The size of a stage for x items, rounded down, at error rate q: its capacity, the least number of
      bits, and the nearest number of hashes. */
  predicate SizeFor(env: Env, x: real, q: real, c: nat, m: int, k: int) {
    RoundsDown(x, c) && LeastBits(env, c, q, m) && NearestHashes(env, c, m, k)
  }

  /** The size of stage i: n s^i items at the stage's share p (1 - r) r^i of the error. */
  predicate StageSize(env: Env, n: nat, p: real, r: real, s: real, i: nat, c: nat, m: int, k: int) {
    SizeFor(env, n as real * Pow(s, i), p * (1.0 - r) * Pow(r, i), c, m, k)
  }

  lemma RoundsDownOnce(x: real, c1: nat, c2: nat)
    requires RoundsDown(x, c1) && RoundsDown(x, c2)
    ensures c1 == c2
  {
  }

  lemma SizesAgree(env: Env, x: real, q: real, c1: nat, m1: int, k1: int, c2: nat, m2: int, k2: int)
    requires env.ln2 > 0.0 && x >= 1.0 && SizeFor(env, x, q, c1, m1, k1) && SizeFor(env, x, q, c2, m2, k2)
    ensures c1 == c2 && m1 == m2 && k1 == k2
  {
    hide LeastBits, NearestHashes;
    RoundsDownOnce(x, c1, c2);
    LeastBitsOnce(env, c1, q, m1, m2);
    NearestHashesOnce(env, c1, m1, k1, k2);
  }

  /** A stage has only one size. */
  lemma StageSizeOnce(env: Env, n: nat, p: real, r: real, s: real, i: nat, c1: nat, m1: int, k1: int, c2: nat, m2: int, k2: int)
    requires env.Sound() && n > 0 && s > 1.0
    requires StageSize(env, n, p, r, s, i, c1, m1, k1) && StageSize(env, n, p, r, s, i, c2, m2, k2)
    ensures c1 == c2 && m1 == m2 && k1 == k2
  {
    hide Pow, SizeFor;
    PowAtLeastOne(s, i);
    ScaledAtLeast(n, Pow(s, i));
    SizesAgree(env, n as real * Pow(s, i), p * (1.0 - r) * Pow(r, i), c1, m1, k1, c2, m2, k2);
  }

  predicate TooLarge(c: nat, m: int, k: int) {
    c >= TWO64 || m >= TWO64 || k >= TWO63
  }

  lemma CapacityFloor(n: nat, i: nat, s: real, x: real)
    requires n > 0 && s > 1.0 && x == n as real * Pow(s, i)
    ensures match StageCapacity(n, i, s)
      case Ok(c) => 1 <= c < TWO64 && RoundsDown(x, c)
      case Err(e) => e == SizeOverflow && forall c: nat :: RoundsDown(x, c) ==> c >= TWO64
  {
    assert x == Scaled(n, Pow(s, i));
    hide Pow, Scaled;
    FloorBounds(x);
  }

  /** computeStage, with any ratios: it refuses bad arguments in the order of the checks, and otherwise
      yields the size of the stage, or an overflow exactly when that is too large. */
  lemma ComputeStageExactly(env: Env, n: nat, p: real, r: real, s: real, i: nat)
    requires env.Sound()
    ensures match ComputeStage(env, n, p, r, s, i)
      case Ok(st) =>
        && 0.0 < p < 1.0 && 0.0 < r < 1.0 && n > 0 && s > 1.0
        && st.index == i && st.fill == 0
        && StageSize(env, n, p, r, s, i, st.capacity, st.m, st.k) && !TooLarge(st.capacity, st.m, st.k)
      case Err(e) =>
        if p <= 0.0 || p >= 1.0 then e == InvalidP
        else if r <= 0.0 || r >= 1.0 then e == InvalidRatio
        else if n == 0 then e == InvalidN
        else if s <= 1.0 then e == InvalidRatio
        else e == SizeOverflow && forall c: nat, m: int, k: int :: StageSize(env, n, p, r, s, i, c, m, k) ==> TooLarge(c, m, k)
  {
    if 0.0 < p < 1.0 && 0.0 < r < 1.0 && n > 0 && s > 1.0 {
      ValidStageExactly(env, n, p, r, s, i);
      hide StageSize, OptimalM, OptimalK, StageCapacity, Pow;
    }
  }

  /** Sizing, with the capacity before rounding and the error rate given. */
  lemma SizedExactly(env: Env, n: nat, p: real, r: real, s: real, i: nat, x: real, q: real)
    requires env.Sound() && n > 0 && StageError(p, i, r).Ok? && StageError(p, i, r).value == q && 0.0 < q < 1.0
    requires match StageCapacity(n, i, s)
      case Ok(c) => 1 <= c < TWO64 && RoundsDown(x, c)
      case Err(e) => e == SizeOverflow && forall c: nat :: RoundsDown(x, c) ==> c >= TWO64
    ensures match ComputeStage(env, n, p, r, s, i)
      case Ok(st) => SizeFor(env, x, q, st.capacity, st.m, st.k) && !TooLarge(st.capacity, st.m, st.k)
      case Err(e) => e == SizeOverflow && forall c: nat, m: int, k: int :: SizeFor(env, x, q, c, m, k) ==> TooLarge(c, m, k)
  {
    hide LeastBits, NearestHashes, OptimalM, OptimalK, StageCapacity, StageError, RoundsDown;
    var capacity := StageCapacity(n, i, s);
    if capacity.Ok? {
      var c0 := capacity.value;
      OptimalMLeast(env, c0, q);
      var bits := OptimalM(env, c0, q);
      if bits.Ok? {
        OptimalKNearest(env, c0, bits.value);
      }
      forall c: nat, m: int, k: int | SizeFor(env, x, q, c, m, k)
        ensures c == c0 && (bits.Ok? ==> m == bits.value)
      {
        RoundsDownOnce(x, c, c0);
        if bits.Ok? {
          LeastBitsOnce(env, c, q, m, bits.value);
        }
      }
    }
  }

  lemma ShareIs(p: real, r: real, i: nat)
    requires 0.0 < p < 1.0 && 0.0 < r < 1.0
    ensures var q := p * (1.0 - r) * Pow(r, i); StageError(p, i, r).Ok? && StageError(p, i, r).value == q && 0.0 < q < 1.0
  {
    Estimate.BudgetInUnit(p, r, i);
  }

  lemma ValidStageExactly(env: Env, n: nat, p: real, r: real, s: real, i: nat)
    requires env.Sound() && 0.0 < p < 1.0 && 0.0 < r < 1.0 && n > 0 && s > 1.0
    ensures match ComputeStage(env, n, p, r, s, i)
      case Ok(st) => StageSize(env, n, p, r, s, i, st.capacity, st.m, st.k) && !TooLarge(st.capacity, st.m, st.k)
      case Err(e) => e == SizeOverflow && forall c: nat, m: int, k: int :: StageSize(env, n, p, r, s, i, c, m, k) ==> TooLarge(c, m, k)
  {
    ShareIs(p, r, i);
    hide Pow, SizeFor, RoundsDown, StageCapacity, ComputeStage, StageError;
    CapacityFloor(n, i, s, n as real * Pow(s, i));
    SizedExactly(env, n, p, r, s, i, n as real * Pow(s, i), p * (1.0 - r) * Pow(r, i));
  }

  // ---------------------------------------------------------------- the stages of a service's filters

  /** Stage i of a filter created with n and p has no size that fits. */
  ghost predicate Unsizable(env: Env, n: nat, p: real, i: nat) {
    forall c: nat, m: int, k: int :: StageSize(env, n, p, 0.9, 2.0, i, c, m, k) ==> TooLarge(c, m, k)
  }

  /** m and k are what stage i of a filter created with n and p must have; its capacity is n 2^i. */
  predicate RightSize(env: Env, n: nat, p: real, i: nat, m: int, k: int) {
    StageSize(env, n, p, 0.9, 2.0, i, n * Pow2(i), m, k) && !TooLarge(n * Pow2(i), m, k)
  }

  /** The plan of a filter: every stage has the right size, or none fits. */
  lemma PlanExactly(env: Env, n: nat, p: real, i: nat)
    requires env.Sound() && n > 0 && 0.0 < p < 1.0
    ensures var plan := ComputeStage(env, n, p, DEFAULT_R, DEFAULT_S, i);
      && (plan.Ok? ==> plan.value.index == i && plan.value.fill == 0 && plan.value.capacity == n * Pow2(i))
      && (plan.Ok? ==> RightSize(env, n, p, i, plan.value.m, plan.value.k))
      && (plan.Err? ==> plan.error == SizeOverflow)
    ensures ComputeStage(env, n, p, DEFAULT_R, DEFAULT_S, i).Err? <==> Unsizable(env, n, p, i)
  {
    ComputeStageExactly(env, n, p, 0.9, 2.0, i);
    if ComputeStage(env, n, p, DEFAULT_R, DEFAULT_S, i).Ok? {
      AtMost64Stages(env, n, p, i);
    }
    hide ComputeStage, StageSize, Pow2;
  }

  lemma ConfigPlan(env: Env, n: nat, p: real, i: nat)
    requires env.Sound()
    ensures ConfigOf(env, n, p).plan(i) == ComputeStage(env, n, p, DEFAULT_R, DEFAULT_S, i)
  {
  }

  /** A filter that can be created has arguments in range. */
  lemma ArgumentsInRange(env: Env, e: Entry)
    requires env.Sound() && ValidEntry(env, e)
    ensures 0.0 < e.p < 1.0 && e.n > 0
  {
    ConfigPlan(env, e.n, e.p, 0);
    hide ConfigOf;
    ComputeStageExactly(env, e.n, e.p, DEFAULT_R, DEFAULT_S, 0);
  }

  /** Where the items of stage i begin in the list of items added. */
  function StartOf(n: nat, i: nat): nat {
    n * (Pow2(i) - 1)
  }

  lemma PartStage(cfg: Config, items: seq<Item>, i: nat)
    requires cfg.Sound() && cfg.plan(0).Ok? && i < |Cut(cfg, items, 0)|
    ensures cfg.plan(i).Ok? && StagesOf(cfg, items)[i] == Filled(cfg, i, Cut(cfg, items, 0)[i])
    ensures forall j :: 0 <= j <= i ==> Sizable(cfg, j)
  {
    StagesOfAt(cfg, items);
    CutExact(cfg, items, 0);
    hide Cut, StagesOf, Filled, Flatten;
    assert Sizable(cfg, i);
  }

  lemma PartPlace(env: Env, n: nat, p: real, items: seq<Item>, i: nat)
    requires env.Sound() && ConfigOf(env, n, p).Sound() && ConfigOf(env, n, p).plan(0).Ok?
    requires i < |Cut(ConfigOf(env, n, p), items, 0)|
    ensures var part := Cut(ConfigOf(env, n, p), items, 0)[i];
      0 <= StartOf(n, i) && StartOf(n, i) + |part| <= |items| && part == items[StartOf(n, i)..StartOf(n, i) + |part|]
  {
    hide ConfigOf, Cut, CapacityAt, Pow2;
    var cfg := ConfigOf(env, n, p);
    PartStage(cfg, items, i);
    CutSlices(cfg, items, 0, i);
    GeometricSum(env, n, p, i);
  }

  /** Part i of a filter's items, and the stage that holds it. */
  lemma PartAt(env: Env, e: Entry, i: nat)
    requires env.Sound() && ValidEntry(env, e) && i < |Cut(ConfigOf(env, e.n, e.p), e.items, 0)|
    ensures var cfg := ConfigOf(env, e.n, e.p);
      var part, s := Cut(cfg, e.items, 0)[i], StagesOf(cfg, e.items)[i];
      && cfg.plan(i).Ok? && s.m == cfg.plan(i).value.m && s.k == cfg.plan(i).value.k
      && s.capacity == e.n * Pow2(i) && s.fill == |part|
      && RightSize(env, e.n, e.p, i, s.m, s.k)
  {
    ArgumentsInRange(env, e);
    PlanExactly(env, e.n, e.p, i);
    ConfigPlan(env, e.n, e.p, i);
    hide ConfigOf, Cut, StagesOf, ComputeStage, RightSize, Unsizable, Flatten, Pow2, BitsOf;
    PartStage(ConfigOf(env, e.n, e.p), e.items, i);
  }

  // ---------------------------------------------------------------- the replies

  /** Create refuses an empty name and bad numbers, then a name in use, then a filter whose first stage
      has no size; otherwise it creates an empty filter and reports the size of its stage 0. */
  lemma CreateReply(env: Env, cat: Catalogue, name: string, n: nat, p: real, now: string)
    requires env.Sound() && ValidCatalogue(env, cat)
    ensures var (reply, cat') := Serve(env, cat, Call.Create(name, n, p, now));
      if name == "" || n == 0 || p <= 0.0 || p >= 1.0 then (reply, cat') == (Failed(ServiceInvalidArgument), cat)
      else if name in cat then (reply, cat') == (Failed(ServiceAlreadyExists), cat)
      else if Unsizable(env, n, p, 0) then (reply, cat') == (Failed(SizeOverflow), cat)
      else
        && reply.Created? && reply.info.name == name && reply.info.stages == 1
        && RightSize(env, n, p, 0, reply.info.m, reply.info.k)
        && cat' == cat[name := Entry(n, p, now, [])]
  {
    if n > 0 && 0.0 < p < 1.0 {
      PlanExactly(env, n, p, 0);
    }
    hide ComputeStage, RightSize, Unsizable, ValidCatalogue;
  }

  predicate RightInfo(env: Env, n: nat, p: real, i: nat, info: StageInfo) {
    info.index == i && info.capacity == n * Pow2(i) && RightSize(env, n, p, i, info.m, info.k)
  }

  /** The statistics of a filter that has taken these items: the stages have the right sizes, every one
      but the last is full, the fills make up the items, and the last has room unless it can have no
      successor. */
  ghost predicate RightStats(env: Env, name: string, e: Entry, s: FilterStats) {
    var count := |s.stages|;
    && s.name == name && s.n == e.n && s.p == e.p && s.r == 0.9 && s.s == 2.0 && s.stageCount == count >= 1
    && (forall i :: 0 <= i < count ==> RightInfo(env, e.n, e.p, i, s.stages[i]))
    && (forall i :: 0 <= i < count - 1 ==> s.stages[i].fill == s.stages[i].capacity)
    && StartOf(e.n, count - 1) + s.stages[count - 1].fill == |e.items|
    && (s.stages[count - 1].fill < s.stages[count - 1].capacity || Unsizable(env, e.n, e.p, count))
  }

  lemma InfoAt(env: Env, name: string, e: Entry, i: nat)
    requires env.Sound() && ValidEntry(env, e)
    ensures |StatsOf(env, name, e).stages| == |Cut(ConfigOf(env, e.n, e.p), e.items, 0)|
    ensures i < |StatsOf(env, name, e).stages| ==>
      var info, part := StatsOf(env, name, e).stages[i], Cut(ConfigOf(env, e.n, e.p), e.items, 0)[i];
      RightInfo(env, e.n, e.p, i, info) && info.fill == |part|
  {
    hide Cut, ConfigOf, RightSize;
    if i < |StatsOf(env, name, e).stages| {
      PartAt(env, e, i);
    }
  }

  /** How many items each part has. */
  lemma PartLengths(env: Env, n: nat, p: real, items: seq<Item>)
    requires env.Sound() && ConfigOf(env, n, p).Sound() && ConfigOf(env, n, p).plan(0).Ok?
    ensures var cfg := ConfigOf(env, n, p);
      var c := Cut(cfg, items, 0);
      && (forall i :: 0 <= i < |c| - 1 ==> |c[i]| == n * Pow2(i))
      && StartOf(n, |c| - 1) + |c[|c| - 1]| == |items|
      && (|c[|c| - 1]| < n * Pow2(|c| - 1) || cfg.plan(|c|).Err?)
  {
    hide ConfigOf, Cut, Flatten, CapacityAt, Pow2, CapacitySum;
    var cfg := ConfigOf(env, n, p);
    var c := Cut(cfg, items, 0);
    CutExact(cfg, items, 0);
    FlattenLength(cfg, c, 0);
    assert c[0..] == c;
    GeometricSum(env, n, p, |c| - 1);
    FirstCapacities(cfg, 0);
    forall i | 0 <= i < |c|
      ensures CapacityAt(cfg, i) == n * Pow2(i)
    {
      assert Sizable(cfg, i);
      CapacityOf(env, n, p, i);
    }
    forall i | 0 <= i < |c| - 1
      ensures |c[i]| == n * Pow2(i)
    {
      assert |c[i]| == CapacityAt(cfg, 0 + i);
    }
  }

  lemma StatsAreRight(env: Env, name: string, e: Entry)
    requires env.Sound() && ValidEntry(env, e)
    ensures RightStats(env, name, e, StatsOf(env, name, e))
  {
    ArgumentsInRange(env, e);
    InfoAt(env, name, e, 0);
    var count := |StatsOf(env, name, e).stages|;
    PlanExactly(env, e.n, e.p, count);
    ConfigPlan(env, e.n, e.p, count);
    PartLengths(env, e.n, e.p, e.items);
    StatsFields(env, name, e);
    hide *;
    forall i | 0 <= i < count
      ensures RightInfo(env, e.n, e.p, i, StatsOf(env, name, e).stages[i])
      ensures StatsOf(env, name, e).stages[i].fill == |Cut(ConfigOf(env, e.n, e.p), e.items, 0)[i]|
    {
      InfoAt(env, name, e, i);
    }
    RightFromParts(env, name, e, StatsOf(env, name, e), Cut(ConfigOf(env, e.n, e.p), e.items, 0));
  }

  lemma StatsFields(env: Env, name: string, e: Entry)
    requires env.Sound() && ValidEntry(env, e)
    ensures var s := StatsOf(env, name, e);
      s.name == name && s.n == e.n && s.p == e.p && s.r == 0.9 && s.s == 2.0 && s.stageCount == |s.stages|
  {
    hide ConfigOf, StagesOf;
  }

  lemma RightFromParts(env: Env, name: string, e: Entry, s: FilterStats, c: seq<seq<Item>>)
    requires s.name == name && s.n == e.n && s.p == e.p && s.r == 0.9 && s.s == 2.0 && s.stageCount == |s.stages|
    requires |s.stages| == |c| >= 1
    requires forall i :: 0 <= i < |c| ==> RightInfo(env, e.n, e.p, i, s.stages[i]) && s.stages[i].fill == |c[i]|
    requires forall i :: 0 <= i < |c| - 1 ==> |c[i]| == e.n * Pow2(i)
    requires StartOf(e.n, |c| - 1) + |c[|c| - 1]| == |e.items|
    requires |c[|c| - 1]| < e.n * Pow2(|c| - 1) || Unsizable(env, e.n, e.p, |c|)
    ensures RightStats(env, name, e, s)
  {
    hide RightSize, Unsizable, StartOf, Pow2;
  }

  /** Nothing else is right. */
  lemma RightStatsOnce(env: Env, name: string, e: Entry, a: FilterStats, b: FilterStats)
    requires env.Sound() && e.n > 0 && RightStats(env, name, e, a) && RightStats(env, name, e, b)
    ensures a == b
  {
    RightLength(env, name, e, a, b);
    RightLength(env, name, e, b, a);
    assert |a.stages| == |b.stages|;
    hide RightSize, Unsizable, StartOf, Pow2;
    forall i | 0 <= i < |a.stages|
      ensures a.stages[i] == b.stages[i]
    {
      var x, y := a.stages[i], b.stages[i];
      assert RightInfo(env, e.n, e.p, i, x) && RightInfo(env, e.n, e.p, i, y);
      RightSizeOnce(env, e.n, e.p, i, x.m, x.k, y.m, y.k);
    }
  }

  lemma RightSizeOnce(env: Env, n: nat, p: real, i: nat, m1: int, k1: int, m2: int, k2: int)
    requires env.Sound() && n > 0 && RightSize(env, n, p, i, m1, k1) && RightSize(env, n, p, i, m2, k2)
    ensures m1 == m2 && k1 == k2
  {
    hide StageSize;
    StageSizeOnce(env, n, p, 0.9, 2.0, i, n * Pow2(i), m1, k1, n * Pow2(i), m2, k2);
  }

  lemma RightLength(env: Env, name: string, e: Entry, a: FilterStats, b: FilterStats)
    requires env.Sound() && RightStats(env, name, e, a) && RightStats(env, name, e, b)
    ensures |a.stages| >= |b.stages|
  {
    var count := |a.stages|;
    if count < |b.stages| {
      assert RightInfo(env, e.n, e.p, count, b.stages[count]) && RightInfo(env, e.n, e.p, count - 1, a.stages[count - 1]);
      SizableIsRight(env, e.n, e.p, count, b.stages[count].m, b.stages[count].k);
      hide RightSize, Unsizable, RightInfo;
      StartsGrow(e.n, count - 1, count);
      StartsGrow(e.n, count, |b.stages| - 1);
      hide StartOf, Pow2;
    }
  }

  lemma SizableIsRight(env: Env, n: nat, p: real, i: nat, m: int, k: int)
    requires RightSize(env, n, p, i, m, k)
    ensures !Unsizable(env, n, p, i)
  {
    hide StageSize;
  }

  lemma StartsGrow(n: nat, i: nat, j: nat)
    requires i <= j
    ensures StartOf(n, i) <= StartOf(n, j)
    ensures StartOf(n, i + 1) == StartOf(n, i) + n * Pow2(i)
  {
    Pow2Monotone(i, j);
    ScaledUp(n, Pow2(i) - 1, Pow2(j) - 1);
    Doubled(n, Pow2(i));
  }

  /** Stats reports exactly the statistics the items added determine. */
  lemma StatsReply(env: Env, cat: Catalogue, name: string)
    requires env.Sound() && ValidCatalogue(env, cat) && name in cat
    ensures var (reply, cat') := Serve(env, cat, Call.Stats(name));
      cat' == cat && reply.Statistics? && RightStats(env, name, cat[name], reply.stats)
  {
    assert name != "" && ValidEntry(env, cat[name]);
    StatsAreRight(env, name, cat[name]);
    hide RightStats, StatsOf, ValidEntry;
  }

  /** Every position of x in a stage of m bits and k hashes is a position of one of these items. */
  predicate Overlaps(env: Env, x: Item, items: seq<Item>, m: nat, k: int)
    requires m >= 1
  {
    forall q :: q in Targets(env, x, m, k) ==> exists y :: y in items && q in Targets(env, y, m, k)
  }

  /** The items of stage i. */
  function ItemsIn(e: Entry, i: nat, fill: nat): seq<Item>
    requires StartOf(e.n, i) + fill <= |e.items|
  {
    e.items[StartOf(e.n, i)..StartOf(e.n, i) + fill]
  }

  predicate OverlapsStage(env: Env, x: Item, e: Entry, i: nat, info: StageInfo) {
    && StartOf(e.n, i) + info.fill <= |e.items| && info.m >= 1
    && Overlaps(env, x, ItemsIn(e, i, info.fill), info.m, info.k)
  }

  lemma CollidesIsOverlap(env: Env, name: string, e: Entry, i: nat, x: Item)
    requires env.Sound() && ValidEntry(env, e) && i < |StatsOf(env, name, e).stages|
    ensures |StatsOf(env, name, e).stages| == |Cut(ConfigOf(env, e.n, e.p), e.items, 0)|
    ensures Collides(ConfigOf(env, e.n, e.p), Cut(ConfigOf(env, e.n, e.p), e.items, 0)[i], i, x)
      <==> OverlapsStage(env, x, e, i, StatsOf(env, name, e).stages[i])
  {
    var cfg, info := ConfigOf(env, e.n, e.p), StatsOf(env, name, e).stages[i];
    InfoAt(env, name, e, i);
    PartAt(env, e, i);
    PartPlace(env, e.n, e.p, e.items, i);
    ConfigIsSound(env, e.n, e.p);
    var st := cfg.plan(i).value;
    SameParams(env, name, e, i);
    forall y
      ensures cfg.targets(y, st.m, st.k) == Targets(env, y, st.m, st.k)
    {
      ConfigTargets(env, e.n, e.p, y, st.m, st.k);
    }
    hide ConfigOf, Cut, StatsOf, StagesOf, RightInfo, RightSize, StartOf, Targets;
    assert Cut(cfg, e.items, 0)[i] == ItemsIn(e, i, info.fill);
  }

  lemma SameParams(env: Env, name: string, e: Entry, i: nat)
    requires env.Sound() && ValidEntry(env, e) && i < |StatsOf(env, name, e).stages|
    ensures var info, s := StatsOf(env, name, e).stages[i], StagesOf(ConfigOf(env, e.n, e.p), e.items)[i];
      info.m == s.m && info.k == s.k
  {
    hide ConfigOf, StagesOf;
  }

  /** Exists answers true exactly when, in some stage, every position of x is a position of an item that
      the stage has taken; stage i has taken the items from n (2^i - 1) on, as many as its fill. */
  lemma ExistsReply(env: Env, cat: Catalogue, name: string, x: Item)
    requires env.Sound() && ValidCatalogue(env, cat) && name in cat
    ensures var reply := Serve(env, cat, Call.Stats(name)).0;
      && reply.Statistics?
      && var infos := reply.stats.stages;
         Serve(env, cat, Call.Exists(name, x)) ==
           (Found(exists i :: 0 <= i < |infos| && OverlapsStage(env, x, cat[name], i, infos[i])), cat)
  {
    var e := cat[name];
    assert name != "" && ValidEntry(env, e);
    var cfg, infos := ConfigOf(env, e.n, e.p), StatsOf(env, name, e).stages;
    InfoAt(env, name, e, 0);
    hide ConfigOf, StatsOf, Cut, Collides, OverlapsStage, ValidEntry, RightInfo;
    forall i | 0 <= i < |infos|
      ensures Collides(cfg, Cut(cfg, e.items, 0)[i], i, x) <==> OverlapsStage(env, x, e, i, infos[i])
    {
      CollidesIsOverlap(env, name, e, i, x);
    }
  }

  /** Add on a live filter appends the item, and fails exactly when that makes all stages full and the
      next one has no size. */
  lemma AddReply(env: Env, cat: Catalogue, name: string, x: Item)
    requires env.Sound() && ValidCatalogue(env, cat) && name in cat
    ensures var before := Serve(env, cat, Call.Stats(name)).0;
      && before.Statistics?
      && var e, count := cat[name], |before.stats.stages|;
         Serve(env, cat, Call.Add(name, x)) ==
           (if |e.items| + 1 >= StartOf(e.n, count) && Unsizable(env, e.n, e.p, count) then Failed(SizeOverflow) else Reply.Added,
            cat[name := e.(items := e.items + [x])])
  {
    var e := cat[name];
    assert name != "" && ValidEntry(env, e);
    var count := |StatsOf(env, name, e).stages|;
    InfoAt(env, name, e, 0);
    ArgumentsInRange(env, e);
    PlanExactly(env, e.n, e.p, count);
    ConfigPlan(env, e.n, e.p, count);
    hide StatsOf, RightSize, Unsizable, RightInfo, ComputeStage, Pow2, StartOf, Cut, ConfigOf, ValidEntry;
    AddFailsExactly(env, cat, name, x);
    BlockedWhenFull(env, e);
  }

  lemma BlockedWhenFull(env: Env, e: Entry)
    requires env.Sound() && ValidEntry(env, e)
    ensures var count := |Cut(ConfigOf(env, e.n, e.p), e.items, 0)|;
      GrowthBlocked(env, e) <==> |e.items| + 1 >= StartOf(e.n, count) && ConfigOf(env, e.n, e.p).plan(count).Err?
  {
    var cfg := ConfigOf(env, e.n, e.p);
    var c := Cut(cfg, e.items, 0);
    var last := |c| - 1;
    PartLengths(env, e.n, e.p, e.items);
    PartStage(cfg, e.items, last);
    CapacityOf(env, e.n, e.p, last);
    StartsGrow(e.n, last, last);
    hide ConfigOf, Cut, StartOf, Pow2, CapacityAt;
  }

  /** Delete takes the filter away and leaves the others. */
  lemma DeleteReply(env: Env, cat: Catalogue, name: string)
    requires env.Sound() && ValidCatalogue(env, cat) && name in cat
    ensures var (reply, cat') := Serve(env, cat, Call.Delete(name));
      reply == Deleted && name !in cat' && forall other :: other != name ==> Lookup(cat', other) == Lookup(cat, other)
  {
    hide ValidEntry;
  }

  // ---------------------------------------------------------------- over a run

  /** The items of the Adds to one filter, in order. */
  function AddedOn(calls: seq<Call>, name: string): seq<Item> {
    if calls == [] then []
    else
      var last := calls[|calls| - 1];
      AddedOn(calls[..|calls| - 1], name) + if last.Add? && last.name == name then [last.item] else []
  }

  lemma EntryAfter(env: Env, cat: Catalogue, call: Call, name: string)
    requires env.Sound() && ValidCatalogue(env, cat) && name in cat && call != Call.Delete(name)
    ensures var cat' := Serve(env, cat, call).1;
      && name in cat'
      && cat'[name] == cat[name].(items := cat[name].items + if call.Add? && call.name == name then [call.item] else [])
  {
    assert cat[name].items + [] == cat[name].items;
    hide ValidEntry, AddResult, MaybeAdded, StatsOf, ConfigOf, ComputeStage;
  }

  /** The items a filter has taken are those of all the Adds since it was created, in order, whatever
      was called in between short of its Delete. */
  lemma {:induction false} ItemsAreAdds(env: Env, names: Names, calls: seq<Call>, b: nat, e: nat, name: string, n: nat, p: real, now: string)
    requires env.Sound() && WellTypedRun(env, names, calls) && b < e <= |calls|
    requires calls[b] == Call.Create(name, n, p, now) && RunOf(env, names, calls).replies[b].Created?
    requires forall m :: b < m < e ==> calls[m] != Call.Delete(name)
    ensures var cat := CatAt(env, names, calls, e);
      name in cat && cat[name] == Entry(n, p, now, AddedOn(calls[b + 1..e], name))
  {
    hide CatAt, RunOf, Serve, WellTypedRun, ValidCatalogue, RightSize, Unsizable;
    ReplyAt(env, names, calls, e - 1);
    if e == b + 1 {
      CreateReply(env, CatAt(env, names, calls, b), name, n, p, now);
      assert calls[b + 1..e] == [];
    } else {
      ItemsAreAdds(env, names, calls, b, e - 1, name, n, p, now);
      EntryAfter(env, CatAt(env, names, calls, e - 1), calls[e - 1], name);
      assert calls[b + 1..e][..e - b - 2] == calls[b + 1..e - 1];
    }
  }

  /** So a Stats call in a run reports what the Adds since the Create determine. */
  lemma StatsInRun(env: Env, names: Names, calls: seq<Call>, b: nat, e: nat, name: string, n: nat, p: real, now: string)
    requires env.Sound() && WellTypedRun(env, names, calls) && b < e < |calls|
    requires calls[b] == Call.Create(name, n, p, now) && RunOf(env, names, calls).replies[b].Created?
    requires forall m :: b < m < e ==> calls[m] != Call.Delete(name)
    requires calls[e] == Call.Stats(name)
    ensures var reply := RunOf(env, names, calls).replies[e];
      reply.Statistics? && RightStats(env, name, Entry(n, p, now, AddedOn(calls[b + 1..e], name)), reply.stats)
  {
    hide CatAt, RunOf, Serve, WellTypedRun, ValidCatalogue, RightStats;
    ItemsAreAdds(env, names, calls, b, e, name, n, p, now);
    ReplyAt(env, names, calls, e);
    StatsReply(env, CatAt(env, names, calls, e), name);
  }

  // ---------------------------------------------------------------- New and Load on any store

  /** New on any store: it refuses an empty name, a bad n, a bad p, a name whose meta hash is there and a
      stage 0 that does not fit, in this order and without a write; otherwise it returns a handle on
      one empty stage of the right size, and registers the name. */
  lemma NewExactly(env: Env, st: StoreState, name: string, n: nat, p: real, now: string)
    requires env.Sound()
    ensures var (r, st') := NewOf(env, st, name, n, p, now);
      if name == "" then (r, st') == (Err(EmptyName), st)
      else if n == 0 then (r, st') == (Err(InvalidN), st)
      else if p <= 0.0 || p >= 1.0 then (r, st') == (Err(InvalidP), st)
      else if HGetAllOf(st, Render(MetaKey(name))) != map[] then (r, st') == (Err(FilterExists), st)
      else if Unsizable(env, n, p, 0) then (r, st') == (Err(SizeOverflow), st)
      else
        && r.Ok? && r.value.n == n && r.value.p == p && r.value.r == 0.9 && r.value.s == 2.0 && |r.value.stages| == 1
        && var stage0 := r.value.stages[0];
           stage0.index == 0 && stage0.fill == 0 && stage0.capacity == n && RightSize(env, n, p, 0, stage0.m, stage0.k)
    ensures NewOf(env, st, name, n, p, now).0.Ok? ==>
      MembersOf(NewOf(env, st, name, n, p, now).1, Render(RegistryKey)) == MembersOf(st, Render(RegistryKey)) + {name}
  {
    if n > 0 && 0.0 < p < 1.0 {
      PlanExactly(env, n, p, 0);
    }
    hide ComputeStage, RightSize, Unsizable, Render, HGetAllOf;
    assert Elements([name]) == {name};
  }

  /** Stage i as its hash and its counter spell it: the counter, when there is one, over the hash's
      own count. */
  predicate SpeltStage(st: StoreState, name: string, i: nat, stage: Stage) {
    var h := HGetAllOf(st, Render(StageMetaKey(name, i)));
    && stage.index == i
    && ParseUint(Field(h, "m")) == Some(stage.m) && Atoi(Field(h, "k")) == Some(stage.k)
    && ParseUint(Field(h, "capacity")) == Some(stage.capacity)
    && ParseUint(Field(h, "fill_count")).Some?
    && match GetOf(st, Render(FillKey(name, i)))
       case None => ParseUint(Field(h, "fill_count")) == Some(stage.fill)
       case Some(text) => ParseUint(text) == Some(stage.fill)
  }

  lemma StageSpelt(st: StoreState, name: string, i: nat, stage: Stage)
    ensures LoadStageAt(st, name, i) == Ok(stage) <==> SpeltStage(st, name, i, stage)
    ensures LoadStageAt(st, name, i).Err? ==> LoadStageAt(st, name, i).error == ParseFailure
  {
    hide ParseUint, Atoi, Render, HGetAllOf, GetOf;
  }

  lemma {:induction false} StagesSpelt(st: StoreState, name: string, count: nat, stages: seq<Stage>)
    requires |stages| == count
    ensures LoadStages(st, name, count) == Ok(stages) <==> forall i :: 0 <= i < count ==> SpeltStage(st, name, i, stages[i])
  {
    hide LoadStageAt, SpeltStage;
    if count > 0 {
      var front, last := stages[..count - 1], stages[count - 1];
      StagesSpelt(st, name, count - 1, front);
      StageSpelt(st, name, count - 1, last);
      assert stages == front + [last];
      if LoadStages(st, name, count) == Ok(stages) {
        var loaded := LoadStages(st, name, count - 1).value + [LoadStageAt(st, name, count - 1).value];
        assert loaded[..count - 1] == front && loaded[count - 1] == last;
        assert forall i :: 0 <= i < count - 1 ==> SpeltStage(st, name, i, front[i]);
      }
    }
  }

  /** Load on any store: a handle comes back exactly when the meta hash and every stage it counts spell
      it. */
  lemma LoadExactly(env: Env, st: StoreState, name: string, h: Handle)
    ensures var meta := HGetAllOf(st, Render(MetaKey(name)));
      LoadOf(env, st, name) == Ok(h) <==>
        && name != "" && meta != map[]
        && ParseUint(Field(meta, "n")) == Some(h.n) && env.parseFloat(Field(meta, "p")) == Some(h.p)
        && env.parseFloat(Field(meta, "r")) == Some(h.r) && env.parseFloat(Field(meta, "s")) == Some(h.s)
        && Atoi(Field(meta, "stage_count")) == Some(|h.stages|)
        && forall i :: 0 <= i < |h.stages| ==> SpeltStage(st, name, i, h.stages[i])
  {
    StagesSpelt(st, name, |h.stages|, h.stages);
    hide ParseUint, Atoi, Render, HGetAllOf, SpeltStage, LoadStages, Field;
  }

  /** When Load fails: no name, no hash, a negative count, or else a number that does not parse. */
  lemma LoadFails(env: Env, st: StoreState, name: string)
    ensures var r, meta := LoadOf(env, st, name), HGetAllOf(st, Render(MetaKey(name)));
      && (r == Err(EmptyName) <==> name == "")
      && (r == Err(FilterNotFound) <==> name != "" && meta == map[])
      && (r == Err(RuntimePanic) <==>
           && name != "" && meta != map[] && ParseUint(Field(meta, "n")).Some? && env.parseFloat(Field(meta, "p")).Some?
           && env.parseFloat(Field(meta, "r")).Some? && env.parseFloat(Field(meta, "s")).Some?
           && Atoi(Field(meta, "stage_count")).Some? && Atoi(Field(meta, "stage_count")).value < 0)
      && (r.Err? && r.error !in {EmptyName, FilterNotFound, RuntimePanic} ==> r.error == ParseFailure)
  {
    hide ParseUint, Atoi, Render, HGetAllOf, LoadStages, Field;
    var count := Atoi(Field(HGetAllOf(st, Render(MetaKey(name))), "stage_count"));
    if count.Some? && count.value >= 0 {
      LoadStagesOnlyParse(st, name, count.value);
    }
  }

  lemma {:induction false} LoadStagesOnlyParse(st: StoreState, name: string, count: nat)
    ensures LoadStages(st, name, count).Err? ==> LoadStages(st, name, count).error == ParseFailure
  {
    hide LoadStageAt;
    if count > 0 {
      LoadStagesOnlyParse(st, name, count - 1);
      StageSpelt(st, name, count - 1, Stage(0, 0, 0, 0, 0));
    }
  }
}
