/** pkg/bloom/hash.go: wrapping double hashing. */
module Hashing {
  import opened Base
  import opened Runtime

  function EnsureNonZero(x: U64): U64 {
    if x == 0 then 1 else x
  }

  function Pow256(i: nat): (r: nat)
    ensures r >= 1
  {
    if i == 0 then 1 else 256 * Pow256(i - 1)
  }

  /** binary.LittleEndian.PutUint64 */
  function LittleEndian(x: U64): Item {
    seq(8, i requires 0 <= i < 8 => x / Pow256(i) % 256)
  }

  function HashParts(env: Env, item: Item): (U64, U64) {
    var h1 := env.sum64(item);
    (h1, EnsureNonZero(env.sum64(LittleEndian(h1))))
  }

  /** The i-th probe: both the product and the sum wrap at 2^64 before the reduction mod m. */
  function Probe(h1: U64, h2: U64, m: nat, i: nat): (p: nat)
    requires m >= 1
    ensures p < m
  {
    (h1 + i * h2 % TWO64) % TWO64 % m
  }

  function PositionsOf(h1: U64, h2: U64, m: nat, k: int): (pos: seq<nat>)
    requires m >= 1
    ensures |pos| == if k <= 0 then 0 else k
    ensures forall i :: 0 <= i < |pos| ==> pos[i] == Probe(h1, h2, m, i)
  {
    seq(if k <= 0 then 0 else k, i requires 0 <= i => Probe(h1, h2, m, i))
  }

  method Positions(h1: U64, h2: U64, m: nat, k: int) returns (pos: seq<nat>)
    requires m >= 1
    ensures pos == PositionsOf(h1, h2, m, k)
  {
    if k <= 0 {
      return [];
    }
    var buf := new nat[k];
    for i := 0 to k
      invariant forall j :: 0 <= j < i ==> buf[j] == Probe(h1, h2, m, j)
    {
      buf[i] := (h1 + i * h2 % TWO64) % TWO64 % m;
    }
    pos := buf[..];
  }

  /** The bits an item owns in a stage of m bits and k probes. */
  function Targets(env: Env, item: Item, m: nat, k: int): (pos: seq<nat>)
    requires m >= 1
    ensures |pos| == if k <= 0 then 0 else k
    ensures forall p :: p in pos ==> p < m
  {
    var (h1, h2) := HashParts(env, item);
    PositionsOf(h1, h2, m, k)
  }

  lemma ProductResidue(i: nat, h2: U64)
    ensures (i + 1) * h2 % TWO64 == (i * h2 % TWO64 + h2) % TWO64
  {
    var a, q := i * h2 % TWO64, i * h2 / TWO64;
    assert (i + 1) * h2 == TWO64 * q + (a + h2);
    ResidueShift(q, a + h2);
  }

  lemma ResidueShift(q: int, x: int)
    ensures (TWO64 * q + x) % TWO64 == x % TWO64
  {
  }

  /** Wrapping the product and then the sum, as uint64 arithmetic does, is wrapping once at the end. */
  lemma ProbeWrapsOnce(h1: U64, h2: U64, m: nat, i: nat)
    requires m >= 1
    ensures Probe(h1, h2, m, i) == (h1 + i * h2) % TWO64 % m
  {
    var a, q := i * h2 % TWO64, i * h2 / TWO64;
    assert h1 + i * h2 == TWO64 * q + (h1 + a);
    ResidueShift(q, h1 + a);
  }

  lemma WrappedStepMoves(h1: U64, h2: U64, a: U64)
    requires h2 != 0
    ensures (h1 + a) % TWO64 != (h1 + (a + h2) % TWO64) % TWO64
  {
  }

  /** Because the step h2 is forced non-zero, consecutive probes differ before the reduction mod m. */
  lemma ProbesAdvance(h1: U64, x: U64, i: nat)
    ensures Probe(h1, EnsureNonZero(x), TWO64, i) != Probe(h1, EnsureNonZero(x), TWO64, i + 1)
  {
    var h2 := EnsureNonZero(x);
    ProductResidue(i, h2);
    WrappedStepMoves(h1, h2, i * h2 % TWO64);
    Unreduced(h1, h2, i);
    Unreduced(h1, h2, i + 1);
  }

  lemma Unreduced(h1: U64, h2: U64, i: nat)
    ensures Probe(h1, h2, TWO64, i) == (h1 + i * h2 % TWO64) % TWO64
  {
  }

  // ---------------------------------------------------------------- the hash in plain numbers

  /** The number that bytes spell, the first one least significant. */
  function Spelled(b: Item): nat {
    if b == [] then 0 else b[0] as nat + 256 * Spelled(b[1..])
  }

  lemma DivideTwice(x: nat, y: nat)
    requires y > 0
    ensures x / (256 * y) == x / 256 / y
  {
    var q := x / 256 / y;
    var r := x / 256 % y;
    assert x / 256 == y * q + r;
    assert x == 256 * (y * q + r) + x % 256;
    var rest := 256 * r + x % 256;
    assert x == (256 * y) * q + rest;
    QuotientIs(x, 256 * y, q, rest);
  }

  lemma QuotientIs(x: nat, d: nat, q: nat, rest: nat)
    requires d > 0 && x == d * q + rest && rest < d
    ensures x / d == q
  {
    var p, r := x / d, x % d;
    assert x == d * p + r;
    assert d * (p - q) == rest - r;
    if p > q {
      Multiple(d, p - q);
    } else if p < q {
      Multiple(d, q - p);
    }
  }

  lemma Multiple(d: nat, k: nat)
    requires k >= 1
    ensures d * k >= d
  {
  }

  /** Every byte of b is the matching digit of x to base 256. */
  predicate DigitsOf(b: Item, x: nat) {
    forall i :: 0 <= i < |b| ==> b[i] == x / Pow256(i) % 256
  }

  lemma {:induction false} DigitsExactly(b: Item, x: nat)
    requires x < Pow256(|b|)
    ensures DigitsOf(b, x) <==> Spelled(b) == x
  {
    if b != [] {
      var rest := b[1..];
      forall i | 0 <= i < |rest|
        ensures x / Pow256(i + 1) % 256 == x / 256 / Pow256(i) % 256 && rest[i] == b[i + 1]
      {
        DivideTwice(x, Pow256(i));
      }
      assert x / Pow256(0) % 256 == x % 256;
      assert DigitsOf(b, x) <==> b[0] == x % 256 && DigitsOf(rest, x / 256) by {
        FirstDigit(b, x);
      }
      assert x / 256 < Pow256(|rest|);
      DigitsExactly(rest, x / 256);
      assert b[0] as nat + 256 * Spelled(rest) == x <==> b[0] == x % 256 && Spelled(rest) == x / 256;
    }
  }

  lemma FirstDigit(b: Item, x: nat)
    requires b != []
    requires forall i :: 0 <= i < |b| - 1 ==> x / Pow256(i + 1) % 256 == x / 256 / Pow256(i) % 256
    ensures DigitsOf(b, x) <==> b[0] == x % 256 && DigitsOf(b[1..], x / 256)
  {
    var rest := b[1..];
    assert x / Pow256(0) == x;
    if b[0] == x % 256 && DigitsOf(rest, x / 256) {
      forall i | 0 <= i < |b|
        ensures b[i] == x / Pow256(i) % 256
      {
        if i > 0 {
          assert rest[i - 1] == x / 256 / Pow256(i - 1) % 256;
        }
      }
    }
    if DigitsOf(b, x) {
      forall i | 0 <= i < |rest|
        ensures rest[i] == x / 256 / Pow256(i) % 256
      {
        assert b[i + 1] == x / Pow256(i + 1) % 256;
      }
    }
  }

  lemma EightBytes()
    ensures Pow256(8) == TWO64
  {
    assert Pow256(4) == 0x1_0000_0000;
    assert Pow256(8) == 256 * (256 * (256 * (256 * Pow256(4))));
  }

  /** The little-endian bytes of a word are the only eight that spell it. */
  lemma LittleEndianExactly(x: U64, b: Item)
    requires |b| == 8
    ensures b == LittleEndian(x) <==> Spelled(b) == x
  {
    EightBytes();
    DigitsExactly(b, x);
    hide Pow256;
    if DigitsOf(b, x) {
      assert b == LittleEndian(x);
    }
  }

  /** What item hashes to: its own hash, and the hash of the eight bytes that spell it, 1 if that is 0. */
  lemma HashPartsExactly(env: Env, item: Item, b: Item)
    requires |b| == 8 && Spelled(b) == env.sum64(item)
    ensures HashParts(env, item) == (env.sum64(item), if env.sum64(b) == 0 then 1 else env.sum64(b))
  {
    LittleEndianExactly(env.sum64(item), b);
  }

  /** The bits an item owns, in plain numbers: g_i = (h1 + i h2) mod 2^64 mod m, where h2 is the hash
      of the eight bytes that spell h1, least significant first, forced non-zero. */
  lemma TargetsExactly(env: Env, item: Item, m: nat, k: int, b: Item)
    requires m >= 1 && |b| == 8 && Spelled(b) == env.sum64(item)
    ensures var pos := Targets(env, item, m, k);
      var h1, h2 := env.sum64(item), if env.sum64(b) == 0 then 1 else env.sum64(b);
      && |pos| == (if k <= 0 then 0 else k)
      && forall i :: 0 <= i < |pos| ==> pos[i] == (h1 + i * h2) % 0x1_0000_0000_0000_0000 % m
  {
    hide Probe;
    HashPartsExactly(env, item, b);
    hide HashParts, Spelled;
    var h1, h2 := env.sum64(item), if env.sum64(b) == 0 then 1 else env.sum64(b);
    forall i | 0 <= i < |Targets(env, item, m, k)|
      ensures Targets(env, item, m, k)[i] == (h1 + i * h2) % 0x1_0000_0000_0000_0000 % m
    {
      ProbeWrapsOnce(h1, h2, m, i);
    }
  }

  /** There always are eight such bytes. */
  lemma SomeBytesSpell(x: U64)
    ensures exists b: Item :: |b| == 8 && Spelled(b) == x
  {
    LittleEndianExactly(x, LittleEndian(x));
  }
}
