/** pkg/bloom/sizing.go and computeStage of pkg/bloom/filter.go, over reals and naturals. */
module Sizing {
  import opened Base
  import opened Runtime

  const DEFAULT_R: real := 0.9
  const DEFAULT_S: real := 2.0

  datatype Stage = Stage(index: nat, m: nat, k: int, capacity: nat, fill: nat)

  /** The total of the fill counts, before any wrap-around. */
  function FillSum(stages: seq<Stage>): nat {
    if stages == [] then 0 else FillSum(stages[..|stages| - 1]) + stages[|stages| - 1].fill
  }

  function Pow(x: real, i: nat): real {
    if i == 0 then 1.0 else x * Pow(x, i - 1)
  }

  function Pow2(i: nat): (r: nat)
    ensures r >= 1
  {
    if i == 0 then 1 else 2 * Pow2(i - 1)
  }

  function Ceil(x: real): int {
    -((-x).Floor)
  }

  lemma BitCountPositive(n: real, lnP: real, ln2: real)
    requires n > 0.0 && lnP < 0.0 && ln2 > 0.0
    ensures ln2 * ln2 > 0.0 && -n * lnP / (ln2 * ln2) > 0.0
  {
    assert -n * lnP > 0.0;
    assert ln2 * ln2 > 0.0;
  }

  /** -n ln(p) / ln2^2 */
  function BitCount(env: Env, n: nat, p: real): (x: real)
    requires env.Sound() && n > 0 && 0.0 < p < 1.0
    ensures x > 0.0
  {
    BitCountPositive(n as real, env.ln(p), env.ln2);
    -(n as real) * env.ln(p) / (env.ln2 * env.ln2)
  }

  /** m = ceil(-n ln(p) / ln2^2) */
  function OptimalM(env: Env, n: nat, p: real): (m: Result<nat>)
    requires env.Sound()
    ensures m.Ok? ==> 1 <= m.value < TWO64
  {
    if n == 0 then Err(InvalidN)
    else if p <= 0.0 || p >= 1.0 then Err(InvalidP)
    else
      var m := Ceil(BitCount(env, n, p));
      if m >= TWO64 then Err(SizeOverflow) else Ok(m)
  }

  /** m / n * ln2 */
  function HashRatio(env: Env, n: nat, m: nat): real
    requires n > 0
  {
    m as real / n as real * env.ln2
  }

  /** k = round(m / n * ln2), at least 1 */
  function OptimalK(env: Env, n: nat, m: nat): (k: Result<int>)
    ensures k.Ok? ==> 1 <= k.value < TWO63
  {
    if n == 0 then Err(InvalidN)
    else
      var k := (HashRatio(env, n, m) + 0.5).Floor;
      if k < 1 then Ok(1) else if k >= TWO63 then Err(SizeOverflow) else Ok(k)
  }

  /** p_i = p (1 - r) r^i */
  function StageError(p: real, i: int, r: real): Result<real> {
    if p <= 0.0 || p >= 1.0 then Err(InvalidP)
    else if i < 0 then Err(InvalidStage)
    else if r <= 0.0 || r >= 1.0 then Err(InvalidRatio)
    else Ok(p * (1.0 - r) * Pow(r, i))
  }

  lemma {:induction false} PowAtLeastOne(s: real, i: nat)
    requires s > 1.0
    ensures Pow(s, i) >= 1.0
  {
    if i > 0 {
      PowAtLeastOne(s, i - 1);
    }
  }

  function Scaled(n: nat, x: real): real {
    n as real * x
  }

  lemma ScaledAtLeast(n: nat, x: real)
    requires x >= 1.0
    ensures Scaled(n, x) >= n as real
  {
  }

  lemma TruncatedBetween(n: nat, c: real)
    requires n as real <= c < TWO64 as real
    ensures n <= c.Floor < TWO64
  {
  }

  /** cap_i = n s^i, truncated */
  function StageCapacity(n: nat, i: int, s: real): (c: Result<nat>)
    ensures c.Ok? ==> n <= c.value < TWO64
  {
    if n == 0 then Err(InvalidN)
    else if i < 0 then Err(InvalidStage)
    else if s <= 1.0 then Err(InvalidRatio)
    else
      PowAtLeastOne(s, i);
      ScaledAtLeast(n, Pow(s, i));
      var c := Scaled(n, Pow(s, i));
      if c >= TWO64 as real then Err(SizeOverflow)
      else
        TruncatedBetween(n, c);
        Ok(c.Floor)
  }

  function ComputeStage(env: Env, n: nat, p: real, r: real, s: real, index: nat): (st: Result<Stage>)
    requires env.Sound()
    ensures st.Ok? ==>
      && st.value.index == index && st.value.fill == 0
      && 1 <= st.value.m < TWO64 && 1 <= st.value.k < TWO63
      && 1 <= n <= st.value.capacity < TWO64
  {
    var pi :- StageError(p, index, r);
    var capacity :- StageCapacity(n, index, s);
    var m :- OptimalM(env, capacity, pi);
    var k :- OptimalK(env, capacity, m);
    Ok(Stage(index, m, k, capacity, 0))
  }

  lemma {:induction false} PowOfTwo(i: nat)
    ensures Pow(DEFAULT_S, i) == Pow2(i) as real
  {
    if i > 0 {
      PowOfTwo(i - 1);
    }
  }

  /** m is the least number of bits for c items at error rate q: the least integer not below
      -c ln(q) / ln2^2, in a form that needs no division. */
  predicate LeastBits(env: Env, c: nat, q: real, m: int) {
    (m - 1) as real * (env.ln2 * env.ln2) < -(c as real) * env.ln(q) <= m as real * (env.ln2 * env.ln2)
  }

  /** k is the integer nearest to (m / c) ln2, a half rounded up, or 1 when that would round to none. */
  predicate NearestHashes(env: Env, c: nat, m: int, k: int) {
    var twice := 2.0 * (m as real * env.ln2);
    if twice < c as real then k == 1 else (2 * k - 1) as real * c as real <= twice < (2 * k + 1) as real * c as real
  }

  /** Multiplication under a name, so that proofs can treat products as atoms. */
  function Times(x: real, d: real): real {
    x * d
  }

  lemma TimesOrder(x: real, y: real, d: real)
    requires d > 0.0
    ensures x < y <==> Times(x, d) < Times(y, d)
  {
    if x < y {
      assert (y - x) * d > 0.0;
    } else {
      assert (x - y) * d >= 0.0;
    }
  }

  lemma TimesQuotient(y: real, d: real)
    requires d > 0.0
    ensures Times(y / d, d) == y
  {
  }

  lemma TimesTwice(x: real, d: real)
    ensures Times(2.0 * x, d) == 2.0 * Times(x, d)
  {
  }

  lemma TimesSwap(x: real, y: real, z: real)
    ensures Times(Times(x, y), z) == Times(Times(x, z), y)
  {
  }

  /** y lies in (m - 1, m] when measured in units of d. */
  predicate Ends(d: real, y: real, m: int) {
    Times((m - 1) as real, d) < y <= Times(m as real, d)
  }

  lemma EndsOnce(d: real, y: real, a: int, b: int)
    requires d > 0.0 && Ends(d, y, a) && Ends(d, y, b)
    ensures a == b
  {
    TimesOrder((b - 1) as real, a as real, d);
    TimesOrder((a - 1) as real, b as real, d);
    hide Times;
  }

  lemma CeilEnds(x: real, d: real, y: real)
    requires d > 0.0 && y == Times(x, d)
    ensures Ends(d, y, Ceil(x))
  {
    CeilLeast(x);
    var m := Ceil(x);
    TimesOrder((m - 1) as real, x, d);
    TimesOrder(m as real, x, d);
    hide Times, Ceil;
  }

  lemma CeilLeast(x: real)
    ensures Ceil(x) as real - 1.0 < x <= Ceil(x) as real
  {
  }

  lemma LeastBitsEnds(env: Env, c: nat, q: real, m: int)
    ensures LeastBits(env, c, q, m) <==> Ends(env.ln2 * env.ln2, -(c as real) * env.ln(q), m)
  {
  }

  lemma SquarePositive(x: real)
    requires x > 0.0
    ensures x * x > 0.0
  {
  }

  /** There is only one least number of bits. */
  lemma LeastBitsOnce(env: Env, c: nat, q: real, a: int, b: int)
    requires env.ln2 > 0.0 && LeastBits(env, c, q, a) && LeastBits(env, c, q, b)
    ensures a == b
  {
    SquarePositive(env.ln2);
    LeastBitsEnds(env, c, q, a);
    LeastBitsEnds(env, c, q, b);
    hide LeastBits, Ends;
    EndsOnce(env.ln2 * env.ln2, -(c as real) * env.ln(q), a, b);
  }

  /** The bit count is the least there is, and is refused exactly when it does not fit 64 bits. */
  lemma OptimalMLeast(env: Env, n: nat, p: real)
    requires env.Sound() && n > 0 && 0.0 < p < 1.0
    ensures match OptimalM(env, n, p)
      case Ok(m) => LeastBits(env, n, p, m)
      case Err(e) => e == SizeOverflow && forall m: int :: LeastBits(env, n, p, m) ==> m >= TWO64
  {
    var m := Ceil(BitCount(env, n, p));
    CountIsLeast(env, n, p);
    hide LeastBits, BitCount, Ceil;
    forall m1: int | LeastBits(env, n, p, m1)
      ensures m1 == m
    {
      LeastBitsOnce(env, n, p, m, m1);
    }
  }

  lemma CountIsLeast(env: Env, n: nat, p: real)
    requires env.Sound() && n > 0 && 0.0 < p < 1.0
    ensures LeastBits(env, n, p, Ceil(BitCount(env, n, p)))
  {
    var d, y := env.ln2 * env.ln2, -(n as real) * env.ln(p);
    CountScaled(env, n, p, d, y);
    hide BitCount, Ceil, Times, Ends;
    CeilEnds(BitCount(env, n, p), d, y);
    LeastBitsEnds(env, n, p, Ceil(BitCount(env, n, p)));
  }

  lemma CountScaled(env: Env, n: nat, p: real, d: real, y: real)
    requires env.Sound() && n > 0 && 0.0 < p < 1.0
    requires d == env.ln2 * env.ln2 && y == -(n as real) * env.ln(p)
    ensures d > 0.0 && y == Times(BitCount(env, n, p), d)
  {
    SquarePositive(env.ln2);
    assert d > 0.0;
    TimesQuotient(y, d);
  }

  /** y / (2 n) lies in [k - 1/2, k + 1/2). */
  predicate Brackets(n: real, y: real, k: int) {
    Times((2 * k - 1) as real, n) <= y < Times((2 * k + 1) as real, n)
  }

  lemma BracketsOnce(n: real, y: real, a: int, b: int)
    requires n > 0.0 && Brackets(n, y, a) && Brackets(n, y, b)
    ensures a == b
  {
    TimesOrder((2 * a - 1) as real, (2 * b + 1) as real, n);
    TimesOrder((2 * b - 1) as real, (2 * a + 1) as real, n);
    hide Times;
  }

  lemma RoundBrackets(x: real, n: real, k: int)
    requires n > 0.0 && k as real <= x + 0.5 < k as real + 1.0
    ensures var y := 2.0 * Times(x, n); Brackets(n, y, k) && (y < n <==> k < 1)
  {
    TimesTwice(x, n);
    TimesOrder(2.0 * x, (2 * k - 1) as real, n);
    TimesOrder(2.0 * x, (2 * k + 1) as real, n);
    TimesOrder(2.0 * x, 1.0, n);
    assert Times(1.0, n) == n;
    hide Times;
  }

  lemma NearestBrackets(env: Env, c: nat, m: int, k: int)
    ensures var y := 2.0 * Times(m as real, env.ln2);
      NearestHashes(env, c, m, k) <==> if y < c as real then k == 1 else Brackets(c as real, y, k)
  {
  }

  /** There is only one nearest number of hashes. */
  lemma NearestHashesOnce(env: Env, c: nat, m: int, a: int, b: int)
    requires c > 0 && NearestHashes(env, c, m, a) && NearestHashes(env, c, m, b)
    ensures a == b
  {
    NearestBrackets(env, c, m, a);
    NearestBrackets(env, c, m, b);
    hide NearestHashes, Brackets, Times;
    var y := 2.0 * Times(m as real, env.ln2);
    if y >= c as real {
      BracketsOnce(c as real, y, a, b);
    }
  }

  /** The hash count is the nearest there is, and is refused exactly when it does not fit 63 bits. */
  lemma OptimalKNearest(env: Env, n: nat, m: nat)
    requires env.Sound() && n > 0
    ensures match OptimalK(env, n, m)
      case Ok(k) => NearestHashes(env, n, m, k)
      case Err(e) => e == SizeOverflow && forall k: int :: NearestHashes(env, n, m, k) ==> k >= TWO63
  {
    var k := (HashRatio(env, n, m) + 0.5).Floor;
    RoundIsNearest(env, n, m);
    hide NearestHashes, HashRatio;
    forall k1: int | NearestHashes(env, n, m, k1) && k >= 1
      ensures k1 == k
    {
      NearestHashesOnce(env, n, m, k, k1);
    }
  }

  lemma RoundIsNearest(env: Env, n: nat, m: nat)
    requires n > 0
    ensures var k := (HashRatio(env, n, m) + 0.5).Floor; NearestHashes(env, n, m, if k < 1 then 1 else k)
  {
    var c, x := n as real, HashRatio(env, n, m);
    var k := (x + 0.5).Floor;
    FloorBounds(x + 0.5);
    assert Times(m as real / c, env.ln2) == x;
    TimesSwap(m as real / c, env.ln2, c);
    TimesQuotient(m as real, c);
    NearestBrackets(env, n, m, if k < 1 then 1 else k);
    hide NearestHashes, Times, Brackets;
    assert Times(x, c) == Times(m as real, env.ln2);
    RoundBrackets(x, c, k);
  }

  lemma FloorBounds(x: real)
    ensures x.Floor as real <= x < x.Floor as real + 1.0
  {
  }

  lemma ScaledWhole(a: nat, b: nat)
    ensures Scaled(a, b as real) == (a * b) as real
  {
  }

  lemma WholeFloor(c: nat)
    ensures (c as real).Floor == c
    ensures c as real >= TWO64 as real <==> c >= TWO64
  {
  }

  /** With the default growth ratio the capacity of stage i is exactly n * 2^i, or there is none. */
  lemma CapacityDoubles(n: nat, i: nat)
    requires n > 0
    ensures StageCapacity(n, i, DEFAULT_S) == if n * Pow2(i) < TWO64 then Ok(n * Pow2(i)) else Err(SizeOverflow)
  {
    hide Pow, Pow2, Scaled;
    PowOfTwo(i);
    ScaledWhole(n, Pow2(i));
    WholeFloor(n * Pow2(i));
  }

  lemma {:induction false} Pow2Grows(i: nat)
    ensures Pow2(i) > i
  {
    if i > 0 {
      Pow2Grows(i - 1);
    }
  }

  lemma {:induction false} Pow2Splits(i: nat, j: nat)
    ensures Pow2(i + j) == Pow2(i) * Pow2(j)
  {
    if i > 0 {
      Pow2Splits(i - 1, j);
      assert Pow2(i + j) == 2 * Pow2(i - 1 + j);
    }
  }

  lemma Pow2At8(i: nat)
    requires i == 8
    ensures Pow2(i) == 256
  {
    assert Pow2(8) == 256;
  }

  lemma Pow2At64(i: nat)
    requires i == 64
    ensures Pow2(i) == TWO64
  {
    hide Pow2;
    var j := i / 8;
    Pow2At8(j);
    Pow2Splits(j, j);
    Pow2Splits(2 * j, 2 * j);
    Pow2Splits(4 * j, 4 * j);
  }

  lemma DoublingExceeds(n: nat, index: nat)
    requires n > 0 && index >= 64
    ensures n * Pow2(index) >= TWO64
  {
    hide Pow2;
    var top := 64;
    Pow2At64(top);
    Pow2Splits(index - top, top);
    var a, b := Pow2(index - top), Pow2(index);
    assert b == a * TWO64;
    assert b >= TWO64;
    assert n * b >= b;
  }

  /** A chain can never hold more than 64 stages. */
  lemma AtMost64Stages(env: Env, n: nat, p: real, index: nat)
    requires env.Sound() && ComputeStage(env, n, p, DEFAULT_R, DEFAULT_S, index).Ok?
    ensures index < 64
    ensures ComputeStage(env, n, p, DEFAULT_R, DEFAULT_S, index).value.capacity == n * Pow2(index)
  {
    var st := ComputeStage(env, n, p, DEFAULT_R, DEFAULT_S, index).value;
    assert StageCapacity(n, index, DEFAULT_S) == Ok(st.capacity);
    CapacityDoubles(n, index);
    if index >= 64 {
      DoublingExceeds(n, index);
    }
  }
}
