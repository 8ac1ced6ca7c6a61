/** The stage chain of one filter as the store holds it, with the atomic operations on it. Keys and
    strings are below this level (Layout); clients and interleavings above it (Protocol). */
module Chain {
  import opened Base
  import opened Runtime
  import opened Sizing
  import Hashing

  /** One stage: its stored parameters, its fill counter, and its bitmap as a set of flat indices. */
  datatype StageState = StageState(m: nat, k: int, capacity: nat, fill: nat, bits: set<nat>)

  type Stages = seq<StageState>

  /** What a filter's stages are computed from. Both functions are deterministic, which is all the
      protocol relies on. */
  datatype Config = Config(plan: nat -> Result<Stage>, targets: (Item, nat, int) -> seq<nat>) {
    ghost predicate Sound() {
      forall i: nat :: plan(i).Ok? ==>
        && plan(i).value.index == i && plan(i).value.fill == 0
        && plan(i).value.m >= 1 && plan(i).value.k >= 1 && plan(i).value.capacity >= 1
    }

    predicate Hit(x: Item, s: StageState) {
      forall q :: q in targets(x, s.m, s.k) ==> q in s.bits
    }

    predicate Member(x: Item, ch: Stages) {
      exists i :: 0 <= i < |ch| && Hit(x, ch[i])
    }
  }

  /** The configuration of a filter created with parameters n and p. */
  ghost function ConfigOf(env: Env, n: nat, p: real): Config
    requires env.Sound()
  {
    Config(
      (i: nat) => ComputeStage(env, n, p, DEFAULT_R, DEFAULT_S, i),
      (x, m, k) => if m >= 1 then Hashing.Targets(env, x, m, k) else [])
  }

  function Fresh(st: Stage): StageState {
    StageState(st.m, st.k, st.capacity, 0, {})
  }

  /** A client's copy of stage i carries the stored parameters; its fill may be out of date. */
  predicate Agree(st: Stage, i: nat, s: StageState) {
    st.index == i && st.m == s.m && st.k == s.k && st.capacity == s.capacity
  }

  predicate HandleOk(handle: seq<Stage>, ch: Stages) {
    |handle| <= |ch| && forall i :: 0 <= i < |handle| ==> Agree(handle[i], i, ch[i])
  }

  /** Every stored stage has the parameters its index determines. */
  predicate Planned(cfg: Config, ch: Stages) {
    |ch| >= 1 && forall i :: 0 <= i < |ch| ==> cfg.plan(i).Ok? && Agree(cfg.plan(i).value, i, ch[i])
  }

  function SetBit(ch: Stages, i: nat, q: nat): Stages
    requires i < |ch|
  {
    ch[i := ch[i].(bits := ch[i].bits + {q})]
  }

  function Bump(ch: Stages, i: nat): Stages
    requires i < |ch|
  {
    ch[i := ch[i].(fill := ch[i].fill + 1)]
  }

  /** AppendStage: compare the count, then write the new stage and advance the count together. */
  function Append(ch: Stages, expected: nat, st: Stage): (int, Stages) {
    if |ch| != expected then (|ch|, ch) else (|ch| + 1, ch + [Fresh(st)])
  }

  /** Everything that can happen to a stage: bits and fills only grow, parameters never change. */
  predicate StageGrows(a: StageState, b: StageState) {
    a.m == b.m && a.k == b.k && a.capacity == b.capacity && a.fill <= b.fill && a.bits <= b.bits
  }

  predicate Grows(a: Stages, b: Stages) {
    |a| <= |b| && forall i :: 0 <= i < |a| ==> StageGrows(a[i], b[i])
  }

  lemma GrowsTransitive(a: Stages, b: Stages, c: Stages)
    requires Grows(a, b) && Grows(b, c)
    ensures Grows(a, c)
  {
    forall i | 0 <= i < |a|
      ensures StageGrows(a[i], c[i])
    {
      assert StageGrows(a[i], b[i]) && StageGrows(b[i], c[i]);
    }
  }

  /** Membership, once true, stays true. */
  lemma MemberGrows(cfg: Config, x: Item, a: Stages, b: Stages)
    requires Grows(a, b) && cfg.Member(x, a)
    ensures cfg.Member(x, b)
  {
    var i :| 0 <= i < |a| && cfg.Hit(x, a[i]);
    assert StageGrows(a[i], b[i]);
    assert cfg.Hit(x, b[i]);
  }

  lemma MemberOfPrefix(cfg: Config, x: Item, ch: Stages, n: nat)
    requires n <= |ch| && cfg.Member(x, ch[..n])
    ensures cfg.Member(x, ch)
  {
    var i :| 0 <= i < n && cfg.Hit(x, ch[..n][i]);
    assert cfg.Hit(x, ch[i]);
  }

  lemma PrefixGrows(a: Stages, b: Stages, n: nat)
    requires Grows(a, b) && n <= |a|
    ensures Grows(a[..n], b[..n])
  {
    forall i | 0 <= i < n
      ensures StageGrows(a[..n][i], b[..n][i])
    {
      assert StageGrows(a[i], b[i]);
    }
  }

  function TotalFill(ch: Stages): nat {
    if ch == [] then 0 else TotalFill(ch[..|ch| - 1]) + ch[|ch| - 1].fill
  }

  lemma {:induction false} TotalFillBump(ch: Stages, i: nat)
    requires i < |ch|
    ensures TotalFill(Bump(ch, i)) == TotalFill(ch) + 1
  {
    var last := |ch| - 1;
    if i == last {
      assert Bump(ch, i)[..last] == ch[..last];
    } else {
      TotalFillBump(ch[..last], i);
      assert Bump(ch, i)[..last] == Bump(ch[..last], i);
    }
  }

  lemma {:induction false} TotalFillSetBit(ch: Stages, i: nat, q: nat)
    requires i < |ch|
    ensures TotalFill(SetBit(ch, i, q)) == TotalFill(ch)
  {
    var last := |ch| - 1;
    if i == last {
      assert SetBit(ch, i, q)[..last] == ch[..last];
    } else {
      TotalFillSetBit(ch[..last], i, q);
      assert SetBit(ch, i, q)[..last] == SetBit(ch[..last], i, q);
    }
  }

  lemma TotalFillFresh(ch: Stages, st: Stage)
    ensures TotalFill(ch + [Fresh(st)]) == TotalFill(ch)
  {
    assert (ch + [Fresh(st)])[..|ch|] == ch;
  }
}
