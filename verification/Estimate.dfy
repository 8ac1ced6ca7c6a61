/** pkg/bloom/estimate.go, and the error budget of pkg/bloom/sizing.go, over the reals. */
module Estimate {
  import opened Base
  import opened Runtime
  import opened Sizing
  import opened Chain
  import opened Persist
  import opened Reference

  // ---------------------------------------------------------------- Items and FillRatio

  function CapSum(stages: seq<Stage>): nat {
    if stages == [] then 0 else CapSum(stages[..|stages| - 1]) + stages[|stages| - 1].capacity
  }

  /** Both sums are uint64 and wrap. */
  function RatioOf(fill: nat, capacity: nat): real {
    if capacity % TWO64 == 0 then 0.0 else (fill % TWO64) as real / (capacity % TWO64) as real
  }

  lemma WrappedSum(a: nat, b: nat)
    ensures (a % TWO64 + b) % TWO64 == (a + b) % TWO64
  {
  }

  method FillRatio(stages: seq<Stage>) returns (ratio: real)
    ensures ratio == RatioOf(FillSum(stages), CapSum(stages))
    ensures var fill, capacity := FillSum(stages) % TWO64, CapSum(stages) % TWO64;
      if capacity == 0 then ratio == 0.0 else ratio * capacity as real == fill as real
  {
    var fill, capacity := 0, 0;
    for i := 0 to |stages|
      invariant fill == FillSum(stages[..i]) % TWO64 && capacity == CapSum(stages[..i]) % TWO64
    {
      assert stages[..i + 1][..i] == stages[..i];
      WrappedSum(FillSum(stages[..i]), stages[i].fill);
      WrappedSum(CapSum(stages[..i]), stages[i].capacity);
      fill := (fill + stages[i].fill) % TWO64;
      capacity := (capacity + stages[i].capacity) % TWO64;
    }
    assert stages[..|stages|] == stages;
    ratio := if capacity == 0 then 0.0 else fill as real / capacity as real;
  }

  method Items(stages: seq<Stage>) returns (n: nat)
    ensures n == FillSum(stages) % TWO64
  {
    n := 0;
    for i := 0 to |stages|
      invariant n == FillSum(stages[..i]) % TWO64
    {
      assert stages[..i + 1][..i] == stages[..i];
      WrappedSum(FillSum(stages[..i]), stages[i].fill);
      n := (n + stages[i].fill) % TWO64;
    }
    assert stages[..|stages|] == stages;
  }

  lemma LastPart(cfg: Config, c: seq<seq<Item>>, ch: Stages)
    requires PartsMatch(cfg, c, ch) && c != []
    ensures var last, stages := |c| - 1, HandleStages(ch);
      && |stages| == |c| && PartsMatch(cfg, c[..last], ch[..last]) && stages[..last] == HandleStages(ch[..last])
      && stages[last].capacity == CapacityAt(cfg, last) && stages[last].fill == |c[last]|
  {
    hide BitsOf;
    assert Sizable(cfg, |c| - 1) && ch[|c| - 1] == Filled(cfg, |c| - 1, c[|c| - 1]);
  }

  /** Every part but the last fills its stage. */
  predicate AllFull(cfg: Config, c: seq<seq<Item>>) {
    forall j :: 0 <= j < |c| - 1 ==> |c[j]| == CapacityAt(cfg, j)
  }

  lemma FrontFull(cfg: Config, c: seq<seq<Item>>)
    requires AllFull(cfg, c) && c != []
    ensures var last := |c| - 1;
      AllFull(cfg, c[..last]) && (last > 0 ==> c[..last][last - 1] == c[last - 1] && |c[last - 1]| == CapacityAt(cfg, last - 1))
  {
    hide CapacityAt;
  }

  lemma SumsSnoc(cfg: Config, stages: seq<Stage>, last: nat)
    requires |stages| == last + 1
    ensures FillSum(stages) == FillSum(stages[..last]) + stages[last].fill
    ensures CapSum(stages) == CapSum(stages[..last]) + stages[last].capacity
    ensures CapacitySum(cfg, last + 1) == CapacitySum(cfg, last) + CapacityAt(cfg, last)
  {
  }

  lemma NoSums(cfg: Config)
    ensures FillSum([]) == 0 && CapSum([]) == 0 && CapacitySum(cfg, 0) == 0
  {
  }

  lemma {:induction false} HandleSums(cfg: Config, c: seq<seq<Item>>, ch: Stages, stages: seq<Stage>)
    requires PartsMatch(cfg, c, ch) && stages == HandleStages(ch) && AllFull(cfg, c)
    ensures |stages| == |c|
    ensures CapSum(stages) == CapacitySum(cfg, |c|)
    ensures c != [] ==> FillSum(stages) == CapacitySum(cfg, |c| - 1) + |c[|c| - 1]|
  {
    if c != [] {
      hide PartsMatch, HandleStages, CapacityAt, AllFull, FillSum, CapSum, CapacitySum;
      var last := |c| - 1;
      LastPart(cfg, c, ch);
      FrontFull(cfg, c);
      HandleSums(cfg, c[..last], ch[..last], stages[..last]);
      SumsSnoc(cfg, stages, last);
      if last > 0 {
        FirstCapacities(cfg, last - 1);
      } else {
        assert stages[..last] == [];
        NoSums(cfg);
      }
    }
  }

  lemma PartSums(cfg: Config, c: seq<seq<Item>>, ch: Stages)
    requires c != [] && PartsMatch(cfg, c, ch) && AllFull(cfg, c)
    ensures var stages := HandleStages(ch);
      |stages| == |c| && FillSum(stages) == |Flatten(c)| && CapSum(stages) == CapacitySum(cfg, |c|)
  {
    hide PartsMatch, HandleStages, CapacityAt;
    assert c[0..] == c;
    FlattenLength(cfg, c, 0);
    HandleSums(cfg, c, ch, HandleStages(ch));
  }

  lemma FullParts(cfg: Config, items: seq<Item>)
    requires cfg.Sound() && cfg.plan(0).Ok?
    ensures AllFull(cfg, Cut(cfg, items, 0))
  {
    hide Cut, CapacityAt, Flatten;
    CutExact(cfg, items, 0);
    var c := Cut(cfg, items, 0);
    forall j | 0 <= j < |c| - 1
      ensures |c[j]| == CapacityAt(cfg, j)
    {
      assert |c[j]| == CapacityAt(cfg, 0 + j);
    }
  }

  /** The fills of a freshly loaded handle add up to the number of adds. */
  lemma ChainSums(cfg: Config, items: seq<Item>)
    requires cfg.Sound() && cfg.plan(0).Ok?
    ensures var stages := HandleStages(StagesOf(cfg, items));
      && |stages| == |StagesOf(cfg, items)|
      && FillSum(stages) == |items| && CapSum(stages) == CapacitySum(cfg, |stages|)
  {
    hide *;
    StagesOfAt(cfg, items);
    CutExact(cfg, items, 0);
    FullParts(cfg, items);
    PartSums(cfg, Cut(cfg, items, 0), StagesOf(cfg, items));
  }

  /** A freshly loaded handle adds up to the number of adds over n (2^L - 1) capacity, and its fill
      ratio is that quotient, below 1 whenever the next stage can be sized. */
  lemma FillRatioExact(env: Env, n: nat, p: real, items: seq<Item>)
    requires env.Sound() && n > 0 && ConfigOf(env, n, p).Sound() && ConfigOf(env, n, p).plan(0).Ok?
    ensures var cfg := ConfigOf(env, n, p);
      var stages := HandleStages(StagesOf(cfg, items));
      var total, capacity := FillSum(stages), CapSum(stages);
      && total == |items| && capacity == n * (Pow2(|stages|) - 1) && capacity > 0
      && (capacity < TWO64 && total < TWO64 ==> RatioOf(total, capacity) == total as real / capacity as real)
      && (cfg.plan(|stages|).Ok? ==> 0.0 <= RatioOf(total, capacity) == total as real / capacity as real < 1.0)
  {
    hide *;
    var cfg := ConfigOf(env, n, p);
    var stages := HandleStages(StagesOf(cfg, items));
    ChainSums(cfg, items);
    ExactStageCount(env, n, p, items);
    SizableStages(cfg, items);
    GeometricSum(env, n, p, |stages|);
    Pow2Grows(|stages|);
    RatioFacts(|items|, n, Pow2(|stages|) - 1);
    if cfg.plan(|stages|).Ok? {
      SizableBound(env, n, p, |stages|);
    }
  }

  lemma SizableStages(cfg: Config, items: seq<Item>)
    requires cfg.Sound() && cfg.plan(0).Ok?
    ensures forall i :: 0 <= i < |StagesOf(cfg, items)| ==> Sizable(cfg, i)
  {
    hide Cut, Flatten, CapacityAt;
    CutExact(cfg, items, 0);
  }

  /** A stage that can be sized comes after less than 2^64 items' capacity. */
  lemma SizableBound(env: Env, n: nat, p: real, count: nat)
    requires env.Sound() && n > 0 && ConfigOf(env, n, p).plan(count).Ok?
    ensures n * (Pow2(count) - 1) < TWO64
  {
    hide Pow2, Pow, Ceil;
    assert ConfigOf(env, n, p).plan(count) == ComputeStage(env, n, p, DEFAULT_R, DEFAULT_S, count);
    AtMost64Stages(env, n, p, count);
    ScaledUp(n, Pow2(count) - 1, Pow2(count));
  }

  lemma RatioBelowOne(total: nat, capacity: nat)
    requires 0 < capacity
    ensures capacity < TWO64 && total < TWO64 ==> RatioOf(total, capacity) == total as real / capacity as real
    ensures capacity < TWO64 && total < capacity ==> 0.0 <= RatioOf(total, capacity) < 1.0
  {
    if capacity < TWO64 {
      Unwrapped(capacity);
      if total < TWO64 {
        Unwrapped(total);
      }
      if total < capacity {
        ProperFraction(total, capacity);
      }
    }
  }

  lemma Unwrapped(a: nat)
    requires a < TWO64
    ensures a % TWO64 == a
  {
  }

  lemma RatioFacts(total: nat, n: nat, units: nat)
    requires n > 0 && units > 0
    ensures n * units > 0
    ensures n * units < TWO64 && total < TWO64 ==> RatioOf(total, n * units) == total as real / (n * units) as real
    ensures n * units < TWO64 && total < n * units ==> 0.0 <= RatioOf(total, n * units) < 1.0
  {
    PositiveProduct(n, units);
    RatioBelowOne(total, n * units);
  }

  lemma PositiveProduct(a: nat, b: nat)
    requires a > 0 && b > 0
    ensures a * b > 0
  {
  }

  lemma ProperFraction(a: nat, b: nat)
    requires a < b
    ensures 0.0 <= a as real / b as real < 1.0
  {
  }

  // ---------------------------------------------------------------- EstimatedFPP

  function Exponent(st: Stage): real
    requires st.m > 0
  {
    -(st.k as real) * st.fill as real / st.m as real
  }

  /** One stage's estimate (1 - e^(-k fill / m))^k. */
  function StageFpp(env: Env, st: Stage): real
    requires st.m > 0 && st.k > 0
  {
    Pow(1.0 - env.exp(Exponent(st)), st.k)
  }

  /** Stages without bits or hashes are skipped. */
  predicate Degenerate(st: Stage) {
    st.m == 0 || st.k <= 0
  }

  /** Multiplication under a name, so that proofs can treat products as atoms. */
  function Mul(x: real, y: real): real {
    x * y
  }

  /** The probability that a stage does not answer falsely. */
  function Factor(env: Env, st: Stage): real {
    if Degenerate(st) then 1.0 else 1.0 - StageFpp(env, st)
  }

  function Survive(env: Env, stages: seq<Stage>): real {
    if stages == [] then 1.0 else Mul(Survive(env, stages[..|stages| - 1]), Factor(env, stages[|stages| - 1]))
  }

  /** The product of 1 - q over the rates q. */
  function Compound(rates: seq<real>): real {
    if rates == [] then 1.0 else Mul(Compound(rates[..|rates| - 1]), 1.0 - rates[|rates| - 1])
  }

  /** x is -k fill / m. */
  predicate Exponential(st: Stage, x: real) {
    x * st.m as real == -((st.k * st.fill) as real)
  }

  /** What one stage contributes: nothing without bits or hashes, else (1 - e^x)^k for the x that is
      -k fill / m. */
  ghost predicate RateIs(env: Env, st: Stage, rate: real) {
    if st.m == 0 || st.k <= 0 then rate == 0.0
    else forall x: real :: Exponential(st, x) ==> rate == Pow(1.0 - env.exp(x), st.k)
  }

  ghost predicate RatesAre(env: Env, stages: seq<Stage>, rates: seq<real>) {
    |rates| == |stages| && forall i :: 0 <= i < |stages| ==> RateIs(env, stages[i], rates[i])
  }

  lemma ExponentUnique(st: Stage, x: real)
    requires st.m > 0
    ensures Exponential(st, x) <==> x == Exponent(st)
  {
    var m, y := st.m as real, -((st.k * st.fill) as real);
    assert -(st.k as real) * st.fill as real == y;
    assert y / m * m == y;
    if x * m == y {
      assert (x - y / m) * m == 0.0;
    }
  }

  lemma RateExactly(env: Env, st: Stage, rate: real)
    ensures RateIs(env, st, rate) <==> Factor(env, st) == 1.0 - rate
  {
    if !Degenerate(st) {
      forall x: real
        ensures Exponential(st, x) <==> x == Exponent(st)
      {
        ExponentUnique(st, x);
      }
      hide Exponent, Exponential, Pow;
      assert Exponential(st, Exponent(st));
    }
  }

  /** The estimate in plain numbers: one minus the product of 1 - (1 - e^(-k fill / m))^k over the
      stages that have bits and hashes. */
  lemma {:induction false} EstimateExactly(env: Env, stages: seq<Stage>, rates: seq<real>)
    requires RatesAre(env, stages, rates)
    ensures Survive(env, stages) == Compound(rates)
  {
    hide Factor, Mul, RateIs;
    if stages != [] {
      var i := |stages| - 1;
      EstimateExactly(env, stages[..i], rates[..i]);
      RateExactly(env, stages[i], rates[i]);
    }
  }

  /** Every list of stages has such rates. */
  lemma {:induction false} SomeRates(env: Env, stages: seq<Stage>) returns (rates: seq<real>)
    ensures RatesAre(env, stages, rates)
  {
    hide Factor, RateIs;
    rates := [];
    if stages != [] {
      var i := |stages| - 1;
      var front := SomeRates(env, stages[..i]);
      RateExactly(env, stages[i], 1.0 - Factor(env, stages[i]));
      rates := front + [1.0 - Factor(env, stages[i])];
    }
  }

  method EstimatedFPP(env: Env, stages: seq<Stage>) returns (fpp: real)
    ensures fpp == 1.0 - Survive(env, stages)
    ensures forall rates: seq<real> :: RatesAre(env, stages, rates) ==> fpp == 1.0 - Compound(rates)
  {
    var survive := 1.0;
    for i := 0 to |stages|
      invariant survive == Survive(env, stages[..i])
    {
      assert stages[..i + 1][..i] == stages[..i];
      var st := stages[i];
      if st.m == 0 || st.k <= 0 {
        continue;
      }
      var fppI := StageFpp(env, st);
      survive := Mul(survive, 1.0 - fppI);
    }
    assert stages[..|stages|] == stages;
    fpp := 1.0 - survive;
    forall rates: seq<real> | RatesAre(env, stages, rates)
      ensures Survive(env, stages) == Compound(rates)
    {
      EstimateExactly(env, stages, rates);
    }
  }

  lemma {:induction false} PowUnit(x: real, k: nat)
    requires 0.0 <= x < 1.0 && k >= 1
    ensures 0.0 <= Pow(x, k) < 1.0
  {
    if k > 1 {
      PowUnit(x, k - 1);
      assert x * Pow(x, k - 1) <= x * 1.0;
    }
  }

  lemma {:induction false} PowMonotone(x: real, y: real, k: nat)
    requires 0.0 <= x <= y
    ensures 0.0 <= Pow(x, k) <= Pow(y, k)
  {
    if k > 0 {
      PowMonotone(x, y, k - 1);
      assert x * Pow(x, k - 1) <= y * Pow(x, k - 1);
      assert y * Pow(x, k - 1) <= y * Pow(y, k - 1);
    }
  }

  lemma QuotientOrder(k: real, a: real, b: real, m: real)
    requires k > 0.0 && m > 0.0 && 0.0 <= a <= b
    ensures -k * b / m <= -k * a / m <= 0.0
  {
    assert k * a <= k * b;
    assert k * a / m <= k * b / m;
    assert -k * b / m == -(k * b / m) && -k * a / m == -(k * a / m);
  }

  lemma ExponentOrder(a: Stage, b: Stage)
    requires a.m > 0 && a.k > 0 && b.m == a.m && b.k == a.k && a.fill <= b.fill
    ensures Exponent(b) <= Exponent(a) <= 0.0
    ensures a.fill == 0 ==> Exponent(a) == 0.0
  {
    QuotientOrder(a.k as real, a.fill as real, b.fill as real, a.m as real);
  }

  lemma ExpUnit(env: Env, x: real, y: real)
    requires env.Sound() && y <= x <= 0.0
    ensures 0.0 <= 1.0 - env.exp(x) <= 1.0 - env.exp(y) < 1.0
  {
    assert env.exp(y) <= env.exp(x) <= env.exp(0.0);
  }

  lemma PowOfZero(k: nat)
    requires k > 0
    ensures Pow(0.0, k) == 0.0
  {
  }

  /** Filling a stage never lowers its estimate, an empty stage estimates 0, and none reaches 1. */
  lemma StageFppOrder(env: Env, a: Stage, b: Stage)
    requires env.Sound() && a.m > 0 && a.k > 0 && b.m == a.m && b.k == a.k && a.fill <= b.fill
    ensures 0.0 <= StageFpp(env, a) <= StageFpp(env, b) < 1.0
    ensures a.fill == 0 ==> StageFpp(env, a) == 0.0
  {
    hide Exponent, Pow;
    ExponentOrder(a, b);
    ExpUnit(env, Exponent(a), Exponent(b));
    PowMonotone(1.0 - env.exp(Exponent(a)), 1.0 - env.exp(Exponent(b)), a.k);
    PowUnit(1.0 - env.exp(Exponent(b)), a.k);
    PowOfZero(a.k);
  }

  lemma ScaledOrder(x: real, y: real, z: real)
    requires x <= y && 0.0 <= z
    ensures x * z <= y * z
  {
  }

  lemma ProductNonNegative(x: real, y: real)
    requires 0.0 <= x && 0.0 <= y
    ensures 0.0 <= x * y
  {
  }

  lemma Shrinks(s: real, q: real)
    requires s <= 1.0 && 0.0 <= q
    ensures s * q <= q
  {
    ScaledOrder(s, 1.0, q);
  }

  lemma Distribute(s: real, q: real)
    ensures s * (1.0 - q) == s - s * q
  {
  }

  /** One more factor 1 - q in a product of survival rates. */
  lemma SurviveStep(s: real, q: real)
    requires 0.0 <= s <= 1.0 && 0.0 <= q <= 1.0
    ensures 0.0 <= Mul(s, 1.0 - q) <= s && 1.0 - Mul(s, 1.0 - q) <= (1.0 - s) + q
  {
    var product, lost := s * (1.0 - q), s * q;
    assert 0.0 <= product by { ProductNonNegative(s, 1.0 - q); }
    assert 0.0 <= lost by { ProductNonNegative(s, q); }
    assert lost <= q by { Shrinks(s, q); }
    assert product == s - lost by { Distribute(s, q); }
  }

  predicate SameShape(a: seq<Stage>, b: seq<Stage>) {
    |a| == |b| && forall i :: 0 <= i < |a| ==> a[i].m == b[i].m && a[i].k == b[i].k && a[i].fill <= b[i].fill
  }

  lemma FactorOrder(env: Env, a: Stage, b: Stage)
    requires env.Sound() && a.m == b.m && a.k == b.k && a.fill <= b.fill
    ensures 0.0 < Factor(env, b) <= Factor(env, a) <= 1.0
    ensures a.fill == 0 ==> Factor(env, a) == 1.0
  {
    if !Degenerate(a) {
      StageFppOrder(env, a, b);
    }
  }

  /** The estimate stays in [0, 1) and never decreases as stages fill. */
  lemma {:induction false} FppMonotone(env: Env, a: seq<Stage>, b: seq<Stage>)
    requires env.Sound() && SameShape(a, b)
    ensures 0.0 < Survive(env, b) <= Survive(env, a) <= 1.0
  {
    if a != [] {
      hide Factor, Mul;
      var i := |a| - 1;
      FppMonotone(env, a[..i], b[..i]);
      FactorOrder(env, a[i], b[i]);
      ProductOrder(Survive(env, b[..i]), Survive(env, a[..i]), Factor(env, b[i]), Factor(env, a[i]));
    }
  }

  lemma ProductPositive(x: real, y: real)
    requires 0.0 < x && 0.0 < y
    ensures 0.0 < x * y
  {
  }

  lemma ProductOrder(x1: real, y1: real, x2: real, y2: real)
    requires 0.0 < x1 <= y1 <= 1.0 && 0.0 < x2 <= y2 <= 1.0
    ensures 0.0 < Mul(x1, x2) <= Mul(y1, y2) <= 1.0
  {
    var low, mid, high := x1 * x2, y1 * x2, y1 * y2;
    assert 0.0 < low by { ProductPositive(x1, x2); }
    assert low <= mid by { ScaledOrder(x1, y1, x2); }
    assert mid <= high by { ScaledOrderLeft(x2, y2, y1); }
    assert high <= y2 by { ScaledOrder(y1, 1.0, y2); }
  }

  lemma ScaledOrderLeft(x: real, y: real, z: real)
    requires x <= y && 0.0 <= z
    ensures z * x <= z * y
  {
  }

  /** Appending a fresh stage leaves the estimate unchanged. */
  lemma FppFreshStage(env: Env, stages: seq<Stage>, extra: Stage)
    requires env.Sound() && extra.fill == 0
    ensures Survive(env, stages + [extra]) == Survive(env, stages)
  {
    assert (stages + [extra])[..|stages|] == stages;
    FactorOrder(env, extra, extra);
  }

  /** The estimate never decreases as a chain grows, in fill or in length, and stays below 1. */
  lemma {:induction false} FppGrows(env: Env, a: Stages, b: Stages)
    requires env.Sound() && Grows(a, b)
    ensures 0.0 < Survive(env, HandleStages(b)) <= Survive(env, HandleStages(a)) <= 1.0
    decreases |b|
  {
    hide Factor, Mul, Survive;
    if |a| == |b| {
      assert forall i :: 0 <= i < |a| ==> StageGrows(a[i], b[i]);
      FppMonotone(env, HandleStages(a), HandleStages(b));
    } else {
      var front := b[..|b| - 1];
      assert forall i :: 0 <= i < |a| ==> StageGrows(a[i], b[i]);
      FppGrows(env, a, front);
      FppLonger(env, front, b[|b| - 1]);
      assert b == front + [b[|b| - 1]];
    }
  }

  lemma FppLonger(env: Env, front: Stages, last: StageState)
    requires env.Sound() && 0.0 < Survive(env, HandleStages(front)) <= 1.0
    ensures 0.0 < Survive(env, HandleStages(front + [last])) <= Survive(env, HandleStages(front))
  {
    hide Factor, Mul;
    var all, i := HandleStages(front + [last]), |front|;
    assert all[..i] == HandleStages(front);
    FactorOrder(env, all[i], all[i]);
    var s := Survive(env, HandleStages(front));
    ProductOrder(s, s, Factor(env, all[i]), Factor(env, all[i]));
    ProductShrinks(s, Factor(env, all[i]));
  }

  lemma ProductShrinks(s: real, f: real)
    requires 0.0 < s && f <= 1.0
    ensures Mul(s, f) <= s
  {
    ScaledOrderLeft(f, 1.0, s);
  }

  lemma AddGrows(cfg: Config, ch: Stages, handle: seq<Stage>, x: Item)
    requires 0 < |handle| <= |ch|
    ensures Grows(ch, AddOf(cfg, ch, handle, x).1)
  {
  }

  /** No Add, through whatever handle, ever lowers the estimate a fresh Load would give. */
  lemma AddNeverLowersFpp(env: Env, cfg: Config, ch: Stages, handle: seq<Stage>, x: Item)
    requires env.Sound() && 0 < |handle| <= |ch|
    ensures var before := 1.0 - Survive(env, HandleStages(ch));
      var after := 1.0 - Survive(env, HandleStages(AddOf(cfg, ch, handle, x).1));
      0.0 <= before <= after < 1.0
  {
    hide Survive, HandleStages, AddOf;
    AddGrows(cfg, ch, handle, x);
    FppGrows(env, ch, AddOf(cfg, ch, handle, x).1);
  }

  function FppSum(env: Env, stages: seq<Stage>): real {
    if stages == [] then 0.0
    else
      var last := stages[|stages| - 1];
      FppSum(env, stages[..|stages| - 1]) + (1.0 - Factor(env, last))
  }

  /** The compounded estimate never exceeds the sum of the per-stage estimates. */
  lemma {:induction false} FppUnionBound(env: Env, stages: seq<Stage>)
    requires env.Sound()
    ensures 1.0 - Survive(env, stages) <= FppSum(env, stages)
  {
    if stages != [] {
      var i := |stages| - 1;
      FppUnionBound(env, stages[..i]);
      FactorOrder(env, stages[i], stages[i]);
      FppMonotone(env, stages[..i], stages[..i]);
      hide Factor, Mul;
      SurviveStep(Survive(env, stages[..i]), 1.0 - Factor(env, stages[i]));
    }
  }

  // ---------------------------------------------------------------- the error budget

  /** The error budget of stage i. */
  function Budget(p: real, r: real, i: nat): real {
    p * (1.0 - r) * Pow(r, i)
  }

  function BudgetSum(p: real, r: real, count: nat): real {
    if count == 0 then 0.0 else BudgetSum(p, r, count - 1) + Budget(p, r, count - 1)
  }

  lemma {:induction false} PowPositive(r: real, k: nat)
    requires 0.0 < r < 1.0
    ensures 0.0 < Pow(r, k) <= 1.0
  {
    if k > 0 {
      PowPositive(r, k - 1);
      ProductPositive(r, Pow(r, k - 1));
      ScaledOrder(r, 1.0, Pow(r, k - 1));
    }
  }

  lemma Telescope(p: real, r: real, x: real)
    ensures p * (1.0 - x) + p * (1.0 - r) * x == p * (1.0 - r * x)
  {
    assert p * (1.0 - x) == p - p * x;
    assert p * (1.0 - r) * x == p * x - p * (r * x);
  }

  lemma {:induction false} BudgetTelescopes(p: real, r: real, count: nat)
    ensures BudgetSum(p, r, count) == p * (1.0 - Pow(r, count))
  {
    if count > 0 {
      BudgetTelescopes(p, r, count - 1);
      Telescope(p, r, Pow(r, count - 1));
    }
  }

  /** The stage budgets sum to p (1 - r^L), strictly below p for every L. */
  lemma BudgetExact(p: real, r: real, count: nat)
    requires 0.0 < p < 1.0 && 0.0 < r < 1.0
    ensures BudgetSum(p, r, count) == p * (1.0 - Pow(r, count)) < p
  {
    BudgetTelescopes(p, r, count);
    PowPositive(r, count);
    ProductPositive(p, Pow(r, count));
    assert p * (1.0 - Pow(r, count)) == p - p * Pow(r, count);
  }

  function RateSum(rates: seq<real>): real {
    if rates == [] then 0.0 else RateSum(rates[..|rates| - 1]) + rates[|rates| - 1]
  }

  /** The false-positive rates q_i are within the stage budgets. */
  predicate WithinBudget(p: real, r: real, rates: seq<real>) {
    forall i :: 0 <= i < |rates| ==> StageError(p, i, r).Ok? && 0.0 <= rates[i] <= StageError(p, i, r).value
  }

  lemma BudgetFormula(p: real, r: real, i: nat)
    requires 0.0 < p < 1.0 && 0.0 < r < 1.0
    ensures StageError(p, i, r) == Ok(Budget(p, r, i))
  {
  }

  /** Every stage's budget is itself an admissible error rate, so sizing a stage never rejects it. */
  lemma BudgetInUnit(p: real, r: real, i: nat)
    requires 0.0 < p < 1.0 && 0.0 < r < 1.0
    ensures StageError(p, i, r).Ok? && 0.0 < StageError(p, i, r).value < 1.0
  {
    BudgetFormula(p, r, i);
    PowPositive(r, i);
    hide Pow, StageError;
    ProductPositive(p, 1.0 - r);
    ProductPositive(p * (1.0 - r), Pow(r, i));
    Shrinks(p, 1.0 - r);
    Shrinks(Pow(r, i), p * (1.0 - r));
  }

  lemma {:induction false} RatesWithinSum(p: real, r: real, rates: seq<real>)
    requires 0.0 < p < 1.0 && 0.0 < r < 1.0 && WithinBudget(p, r, rates)
    ensures RateSum(rates) <= BudgetSum(p, r, |rates|)
  {
    hide Budget, StageError;
    if rates != [] {
      var i := |rates| - 1;
      RatesWithinSum(p, r, rates[..i]);
      BudgetFormula(p, r, i);
      assert BudgetSum(p, r, i + 1) == BudgetSum(p, r, i) + Budget(p, r, i);
    }
  }

  lemma {:induction false} CompoundBound(rates: seq<real>)
    requires forall i :: 0 <= i < |rates| ==> 0.0 <= rates[i] <= 1.0
    ensures 0.0 <= Compound(rates) <= 1.0 && 1.0 - Compound(rates) <= RateSum(rates)
  {
    hide Mul;
    if rates != [] {
      var i := |rates| - 1;
      CompoundBound(rates[..i]);
      SurviveStep(Compound(rates[..i]), rates[i]);
    }
  }

  /** Compounding any rates within the stage budgets stays below p, for any number of stages. */
  lemma CompoundedBelowTarget(p: real, r: real, rates: seq<real>)
    requires 0.0 < p < 1.0 && 0.0 < r < 1.0 && WithinBudget(p, r, rates)
    ensures 1.0 - Compound(rates) <= RateSum(rates) < p
  {
    forall i | 0 <= i < |rates|
      ensures 0.0 <= rates[i] <= 1.0
    {
      BudgetInUnit(p, r, i);
    }
    hide StageError;
    BudgetExact(p, r, |rates|);
    RatesWithinSum(p, r, rates);
    CompoundBound(rates);
  }
}
