/** Concrete inputs for the promises that fail in some case, beside the exact conditions stated
    elsewhere: shared keys, a handle out of date, growth that cannot be sized. */
module Samples {
  import opened Base
  import opened Runtime
  import opened Hashing
  import opened Decimal
  import opened Keys
  import opened Store
  import opened Sizing
  import opened Chain
  import opened Layout
  import opened Persist
  import opened Reference
  import opened Engine
  import opened Service
  import opened Runs

  // ---------------------------------------------------------------- sizing in a sample environment

  lemma SampleBitCount(bits: nat, n: nat, p: real)
    requires bits >= 1 && n > 0 && 0.0 < p < 1.0
    ensures SampleEnv(bits).Sound()
    ensures BitCount(SampleEnv(bits), n, p) == (n * bits) as real
  {
    SampleIsSound(bits);
    assert (n as real) * (bits as real) == (n * bits) as real;
    assert -(n as real) * (-(bits as real) / 4.0) / (0.5 * 0.5) == (n as real) * (bits as real);
  }

  lemma WholeCeil(c: nat)
    ensures Ceil(c as real) == c
  {
  }

  lemma Cancelled(n: nat, bits: nat)
    requires n > 0
    ensures (n * bits) as real / n as real == bits as real
  {
    assert (n * bits) as real == n as real * bits as real;
  }

  lemma SampleHashCount(bits: nat, n: nat)
    requires bits >= 1 && n > 0 && bits < TWO63
    ensures OptimalK(SampleEnv(bits), n, n * bits) == Ok((bits + 1) / 2)
  {
    Cancelled(n, bits);
  }

  /** Stage i gets n 2^i items at a fixed number of bits each, or cannot be sized. */
  lemma SampleStage(bits: nat, n: nat, p: real, i: nat)
    requires 1 <= bits < 1000 && n > 0 && 0.0 < p < 1.0
    ensures SampleEnv(bits).Sound()
    ensures var capacity := n * Pow2(i);
      ComputeStage(SampleEnv(bits), n, p, DEFAULT_R, DEFAULT_S, i) ==
        if capacity * bits < TWO64 then Ok(Stage(i, capacity * bits, (bits + 1) / 2, capacity, 0)) else Err(SizeOverflow)
  {
    hide Pow, Pow2, SampleEnv, BitCount, Ceil, OptimalK, StageError, StageCapacity;
    SampleIsSound(bits);
    Estimate.BudgetInUnit(p, DEFAULT_R, i);
    CapacityDoubles(n, i);
    var capacity := n * Pow2(i);
    Estimate.PositiveProduct(n, Pow2(i));
    ScaledUp(capacity, 1, bits);
    SampleBitCount(bits, capacity, StageError(p, i, DEFAULT_R).value);
    WholeCeil(capacity * bits);
    SampleHashCount(bits, capacity);
  }

  // ---------------------------------------------------------------- shared keys

  /** The family of one name, with room for any stage. */
  function Only(a: string): Names {
    Names(iset{a}, (name: string) => (i: nat) => true)
  }

  lemma NeighbourKey(a: string)
    ensures Render(MetaKey(a + ":s0")) == Render(StageMetaKey(a, 0))
    ensures forall stages: nat -> bool :: !Extends(a, stages, a) && (stages(0) ==> Extends(a, stages, a + ":s0"))
  {
    assert Format(0) == "0";
    assert (a + ":s0") + ":" + "meta" == a + ":" + ("s" + Format(0) + ":" + "meta");
    assert a + ":s0" == a + ":s" + Format(0);
    forall i: nat
      ensures a != a + ":s" + Format(i)
    {
      assert |a + ":s" + Format(i)| > |a|;
    }
  }

  /** Once a filter exists, its name followed by ":s0" is refused as taken, although no filter of
      that name is registered. */
  lemma NeighbourRefused(env: Env, a: string, n: nat, p: real, now: string, n2: nat, p2: real, now2: string)
    requires env.Sound() && CreateError(env, a, n, p, false).None? && CreateError(env, a + ":s0", n2, p2, false).None?
    ensures var (r, st) := NewOf(env, EMPTY_STORE, a, n, p, now);
      && r.Ok? && MembersOf(st, Render(RegistryKey)) == {a}
      && NewOf(env, st, a + ":s0", n2, p2, now2) == (Err(FilterExists), st)
  {
    hide Render, MetaFields, ComputeStage, Format;
    NeighbourKey(a);
    var st := NewOf(env, EMPTY_STORE, a, n, p, now).1;
    assert Elements([a]) == {a};
    assert "m" in HGetAllOf(st, Render(StageMetaKey(a, 0)));
  }

  lemma MetaKeysDiffer(a: string, b: string)
    requires b == a + ":s0"
    ensures Render(MetaKey(a)) != Render(MetaKey(b)) && Render(MetaKey(a)) != Render(StageMetaKey(b, 0))
  {
    assert |Render(MetaKey(a))| < |Render(MetaKey(b))|;
    assert |Render(StageMetaKey(b, 0))| > |b| + 4;
  }

  lemma BothCreated(env: Env, a: string, b: string, n: nat, p: real, now: string, n2: nat, p2: real, now2: string)
    requires env.Sound() && CreateError(env, a, n, p, false).None? && CreateError(env, b, n2, p2, false).None?
    requires b == a + ":s0"
    ensures var (r2, st2) := NewOf(env, EMPTY_STORE, b, n2, p2, now2);
      var (r1, st1) := NewOf(env, st2, a, n, p, now);
      && r2.Ok? && r1.Ok? && |r1.value.stages| == 1 && r1.value.stages[0].index == 0
      && b in MembersOf(st1, Render(RegistryKey))
  {
    MetaKeysDiffer(a, b);
    hide Render, MetaFields, ComputeStage;
    assert b in Elements([b]);
  }

  lemma DroppedWith(env: Env, st: StoreState, a: string, stages: seq<Stage>, b: string)
    requires b != a && b != "" && b in MembersOf(st, Render(RegistryKey))
    requires Render(RegistryKey) !in RenderAll(DropKeys(a, stages)) && Render(MetaKey(b)) in RenderAll(DropKeys(a, stages))
    ensures var st' := DropOf(st, a, stages);
      b in MembersOf(st', Render(RegistryKey)) && LoadOf(env, st', b) == Err(FilterNotFound)
  {
    hide Render, RenderAll, DropKeys;
  }

  lemma FirstStageListed(a: string, stages: seq<Stage>)
    requires |stages| == 1 && stages[0].index == 0
    ensures Render(StageMetaKey(a, 0)) in RenderAll(DropKeys(a, stages))
    ensures Render(RegistryKey) !in RenderAll(DropKeys(a, stages))
  {
    hide Render, DropKeys;
    NeighbourKey(a);
    var list := DropKeys(a, stages);
    DropKeysMembers(a, stages, StageMetaKey(a, 0));
    assert StageMetaKey(a, stages[0].index) in list;
    RenderedMember(list, Render(StageMetaKey(a, 0)));
    forall k | k in list
      ensures Named(Only(a), k) && !k.RegistryKey?
    {
      DropKeysMembers(a, stages, k);
      DropKeysStorable(Only(a), a, stages, k);
    }
    RegistryNotDropped(Only(a), list);
  }

  /** In the other order both are accepted, and then dropping the first takes the other's meta hash
      with it: the other stays registered and can no longer be loaded. */
  lemma NeighbourLost(env: Env, a: string, b: string, n: nat, p: real, now: string, n2: nat, p2: real, now2: string)
    requires env.Sound() && CreateError(env, a, n, p, false).None? && CreateError(env, b, n2, p2, false).None?
    requires b == a + ":s0"
    ensures var (r2, st2) := NewOf(env, EMPTY_STORE, b, n2, p2, now2);
      var (r1, st1) := NewOf(env, st2, a, n, p, now);
      && r2.Ok? && r1.Ok?
      && var st := DropOf(st1, a, r1.value.stages);
         b in MembersOf(st, Render(RegistryKey)) && LoadOf(env, st, b) == Err(FilterNotFound)
  {
    hide Render, NewOf, DropOf, LoadOf, DropKeys, RenderAll;
    BothCreated(env, a, b, n, p, now, n2, p2, now2);
    NeighbourKey(a);
    var (r1, st1) := NewOf(env, NewOf(env, EMPTY_STORE, b, n2, p2, now2).1, a, n, p, now);
    FirstStageListed(a, r1.value.stages);
    DroppedWith(env, st1, a, r1.value.stages, b);
  }

  // ---------------------------------------------------------------- a handle out of date

  lemma SamplePositions(x: Item, m: nat)
    requires m >= 1 && (x == [] || x == [1])
    ensures Targets(SampleEnv(4), x, m, 2) == if x == [1] then [1 % m, 2 % m] else [0, 1 % m]
  {
    var env, h1 := SampleEnv(4), if x == [1] then 1 else 0;
    SampleHash(x);
    SampleProbe(h1, m, 0);
    SampleProbe(h1, m, 1);
    hide SampleEnv, HashParts, Probe;
    assert Targets(env, x, m, 2) == [Probe(h1, 1, m, 0), Probe(h1, 1, m, 1)];
  }

  lemma SampleHash(x: Item)
    requires x == [] || x == [1]
    ensures HashParts(SampleEnv(4), x) == (if x == [1] then 1 else 0, 1)
  {
    var h1 := SampleEnv(4).sum64(x);
    assert |LittleEndian(h1)| == 8;
    assert LittleEndian(h1) != [1];
  }

  lemma SampleProbe(h1: U64, m: nat, i: nat)
    requires m >= 1 && h1 < 2 && i < 2
    ensures Probe(h1, 1, m, i) == if h1 + i == 0 then 0 else (h1 + i) % m
  {
  }

  lemma SamplePlans(bits: nat, n: nat)
    requires n > 0 && 1 <= bits < 1000
    ensures var env := SampleEnv(bits); env.Sound() && ConfigOf(env, n, 0.5).Sound()
    ensures var cfg, m, k := ConfigOf(SampleEnv(bits), n, 0.5), n * bits, (bits + 1) / 2;
      && cfg.plan(0) == (if m < TWO64 then Ok(Stage(0, m, k, n, 0)) else Err(SizeOverflow))
      && cfg.plan(1) == (if 2 * m < TWO64 then Ok(Stage(1, 2 * m, k, 2 * n, 0)) else Err(SizeOverflow))
  {
    hide SampleEnv, Pow2, ComputeStage;
    var env, m := SampleEnv(bits), n * bits;
    FirstTwo(n, bits);
    SampleStageOf(bits, n, 0, n, m);
    SampleStageOf(bits, n, 1, 2 * n, 2 * m);
    ConfigIsSound(env, n, 0.5);
    var cfg := ConfigOf(env, n, 0.5);
    assert cfg.plan(0) == ComputeStage(env, n, 0.5, DEFAULT_R, DEFAULT_S, 0);
    assert cfg.plan(1) == ComputeStage(env, n, 0.5, DEFAULT_R, DEFAULT_S, 1);
  }

  lemma FirstTwo(n: nat, bits: nat)
    ensures n * Pow2(0) == n && n * Pow2(1) == 2 * n && (2 * n) * bits == 2 * (n * bits)
  {
    assert Pow2(0) == 1 && Pow2(1) == 2;
  }

  lemma SampleStageOf(bits: nat, n: nat, i: nat, capacity: nat, m: nat)
    requires 1 <= bits < 1000 && n > 0 && capacity == n * Pow2(i) && m == capacity * bits
    ensures SampleEnv(bits).Sound()
    ensures ComputeStage(SampleEnv(bits), n, 0.5, DEFAULT_R, DEFAULT_S, i) ==
      if m < TWO64 then Ok(Stage(i, m, (bits + 1) / 2, capacity, 0)) else Err(SizeOverflow)
  {
    hide SampleEnv, Pow2, ComputeStage;
    SampleStage(bits, n, 0.5, i);
  }

  /** Two items in stages of capacity 1 and 2. */
  lemma TwoParts(cfg: Config, a: Item, b: Item)
    requires cfg.Sound() && cfg.plan(0).Ok? && cfg.plan(1).Ok?
    requires cfg.plan(0).value.capacity == 1 && cfg.plan(1).value.capacity == 2
    ensures Cut(cfg, [a, b], 0) == [[a], [b]]
  {
    assert [a, b][..1] == [a] && [a, b][1..] == [b];
    assert Cut(cfg, [b], 1) == [[b]];
  }

  lemma SampleTargets()
    ensures SampleEnv(4).Sound()
    ensures var cfg := ConfigOf(SampleEnv(4), 1, 0.5); 2 in cfg.targets([1], 4, 2) && 2 !in cfg.targets([], 4, 2)
  {
    SampleIsSound(4);
    hide SampleEnv, Targets;
    ConfigTargets(SampleEnv(4), 1, 0.5, [1], 4, 2);
    ConfigTargets(SampleEnv(4), 1, 0.5, [], 4, 2);
    SamplePositions([1], 4);
    SamplePositions([], 4);
    assert [1, 2][1] == 2;
  }

  lemma MissesSecond(cfg: Config)
    requires cfg.Sound() && cfg.plan(0) == Ok(Stage(0, 4, 2, 1, 0)) && cfg.plan(1) == Ok(Stage(1, 8, 2, 2, 0))
    requires 2 in cfg.targets([1], 4, 2) && 2 !in cfg.targets([], 4, 2)
    ensures |StagesOf(cfg, [[], [1]])| == 2
    ensures cfg.Member([1], StagesOf(cfg, [[], [1]])) && !cfg.Member([1], StagesOf(cfg, [[], [1]])[..1])
  {
    var items: seq<Item> := [[], [1]];
    TwoParts(cfg, [], [1]);
    hide Cut, StagesOf;
    assert !Collides(cfg, [[]], 0, [1]);
    assert items[1] == [1];
    MissedExactly(cfg, items, [1], 1);
    AddedIsFound(cfg, items, [1]);
    MembershipExact(cfg, items, [1]);
  }

  /** A filter for one item at error rate one half, after adding [] and then [1]: a handle that
      knows its first stage only misses [1]. */
  lemma StaleHandleMisses()
    ensures SampleEnv(4).Sound()
    ensures var cfg := ConfigOf(SampleEnv(4), 1, 0.5);
      && cfg.Sound() && cfg.plan(0).Ok? && |StagesOf(cfg, [[], [1]])| == 2
      && cfg.Member([1], StagesOf(cfg, [[], [1]])) && !cfg.Member([1], StagesOf(cfg, [[], [1]])[..1])
  {
    hide SampleEnv, ConfigOf, StagesOf;
    SamplePlans(4, 1);
    SampleTargets();
    MissesSecond(ConfigOf(SampleEnv(4), 1, 0.5));
  }

  lemma ScenarioStart(env: Env, names: Names)
    requires env == SampleEnv(4) && names == Only("a")
    ensures env.Sound() && Family(names) && ValidCatalogue(env, map[]) && Rep(env, names, EMPTY_STORE, WorldOf(env, map[]))
    ensures Admissible(env, names, map[], Call.Create("a", 1, 0.5, ""))
    ensures CreateError(env, "a", 1, 0.5, false).None?
    ensures ConfigOf(env, 1, 0.5).plan(0).Ok?
  {
    SamplePlans(4, 1);
    EmptyRep(env, names);
    assert WorldOf(env, map[]) == map[];
    NeighbourKey("a");
    assert ConfigOf(env, 1, 0.5).plan(0) == ComputeStage(env, 1, 0.5, DEFAULT_R, DEFAULT_S, 0);
  }

  lemma ScenarioEnd(env: Env, cat: Catalogue)
    requires env == SampleEnv(4) && env.Sound() && ValidCatalogue(env, cat) && "a" in cat
    requires cat["a"] == Entry(1, 0.5, "", [[], [1]]) && ConfigOf(env, 1, 0.5).plan(0).Ok?
    ensures ValidWorld(env, WorldOf(env, cat)) && "a" in WorldOf(env, cat)
    ensures var f := WorldOf(env, cat)["a"];
      && f.n == 1 && f.p == 0.5 && |f.stages| == 2
      && HandleOk([ConfigOf(env, 1, 0.5).plan(0).value], f.stages)
      && HandleStages(f.stages) != [] && |HandleStages(f.stages)| == 2 && HandleOk(HandleStages(f.stages), f.stages)
      && ConfigOf(env, 1, 0.5).Member([1], f.stages) && !ConfigOf(env, 1, 0.5).Member([1], f.stages[..1])
  {
    assert ValidEntry(env, cat["a"]);
    StaleHandleMisses();
    hide SampleEnv, ConfigOf, StagesOf, ValidWorld;
    WorldIsValid(env, cat);
    StagesPlanned(ConfigOf(env, 1, 0.5), [[], [1]]);
    HandleOfOwnChain(WorldOf(env, cat)["a"].stages);
    var cfg, ch := ConfigOf(env, 1, 0.5), StagesOf(ConfigOf(env, 1, 0.5), [[], [1]]);
    assert cfg.plan(0).Ok? && Agree(cfg.plan(0).value, 0, ch[0]);
  }

  const SAMPLE_ENTRY: Entry := Entry(1, 0.5, "", [])

  /** One filter, created through one handle and loaded through another. */
  method OpenTwice(env: Env, store: MemStore, ghost names: Names) returns (f: Filter, g: Filter)
    requires env == SampleEnv(4) && names == Only("a") && store.State() == EMPTY_STORE
    modifies store
    ensures fresh(f) && fresh(g) && f != g && f.env == g.env == env && f.store == g.store == store
    ensures env.Sound() && Family(names) && ValidCatalogue(env, map["a" := SAMPLE_ENTRY])
    ensures Rep(env, names, store.State(), WorldOf(env, map["a" := SAMPLE_ENTRY]))
    ensures Current(f, env, map["a" := SAMPLE_ENTRY], "a") && Current(g, env, map["a" := SAMPLE_ENTRY], "a")
  {
    ScenarioStart(env, names);
    hide SampleEnv, Rep, Family, ValidCatalogue, ValidEntry, WorldOf, StateOf, HandleStages, ConfigOf, LoadOf, NewOf, Admissible;
    hide CreateError;
    NewStartsCurrent(env, names, store.State(), map[], "a", 1, 0.5, "");
    assert map[]["a" := SAMPLE_ENTRY] == map["a" := SAMPLE_ENTRY];
    var created := Filter.New(env, store, "a", 1, 0.5, "");
    LoadEntry(env, names, store.State(), map["a" := SAMPLE_ENTRY], "a", SAMPLE_ENTRY);
    var loaded := Filter.Load(env, store, "a");
    f, g := created.value, loaded.value;
  }

  /** The same through the class: after adds through one handle, another that was loaded before them
      answers false for an added item, and the first answers true. */
  method StaleHandleScenario() returns (stale: bool, current: bool)
    ensures !stale && current
  {
    var env := SampleEnv(4);
    ghost var names := Only("a");
    var store := new MemStore();
    var f, g := OpenTwice(env, store, names);
    hide SampleEnv, Rep, Family, ValidCatalogue, ValidEntry, WorldOf, StateOf, HandleStages, ConfigOf;
    ghost var cat := map["a" := SAMPLE_ENTRY];
    StartsCurrent(env, cat, "a");
    hide HandleOk;
    var items: seq<Item> := [[], [1]];
    AddAll(f, names, cat, "a", items);
    ghost var filled := WithItems(cat, "a", items);
    assert [] + items == items;
    EntrySizable(env, filled, "a");
    stale, current := AskBoth(f, g, names, filled);
  }

  method AskBoth(f: Filter, g: Filter, ghost names: Names, ghost cat: Catalogue) returns (stale: bool, current: bool)
    requires f.env == g.env == SampleEnv(4) && f.store == g.store && f.env.Sound() && Family(names)
    requires ValidCatalogue(f.env, cat) && "a" in cat && cat["a"] == Entry(1, 0.5, "", [[], [1]])
    requires Rep(f.env, names, f.store.State(), WorldOf(f.env, cat)) && Current(f, f.env, cat, "a")
    requires ConfigOf(g.env, 1, 0.5).plan(0).Ok? && g.stages == [ConfigOf(g.env, 1, 0.5).plan(0).value]
    requires g.name == "a" && g.n == 1 && g.p == 0.5 && g.r == DEFAULT_R && g.s == DEFAULT_S
    ensures !stale && current
  {
    hide SampleEnv, Rep, Family, ValidCatalogue, ValidWorld, WorldOf, HandleStages, ConfigOf, HandleOk;
    ScenarioEnd(f.env, cat);
    ghost var w := WorldOf(f.env, cat);
    assert w["a"].stages[..2] == w["a"].stages;
    stale := g.Exists([1], names, w);
    current := f.Exists([1], names, w);
  }

  lemma EntrySizable(env: Env, cat: Catalogue, name: string)
    requires env.Sound() && ValidCatalogue(env, cat) && name in cat
    ensures ConfigOf(env, cat[name].n, cat[name].p).plan(0).Ok?
  {
    assert ValidEntry(env, cat[name]);
  }

  // ---------------------------------------------------------------- growth that cannot be sized

  const BIG_N: nat := 0x2000_0000_0000_0000

  lemma OnePart(cfg: Config, items: seq<Item>)
    requires cfg.Sound() && cfg.plan(0).Ok? && |items| < cfg.plan(0).value.capacity
    ensures Cut(cfg, items, 0) == [items]
  {
  }

  /** A filter for 2^61 items at error rate one half, one item short of filling stage 0. At seven bits
      an item stage 0 has a size and stage 1 has none. */
  function NearlyFull(): Entry {
    Entry(BIG_N, 0.5, "", seq(BIG_N - 1, _ => []))
  }

  lemma BlockedEntry()
    ensures SampleEnv(7).Sound()
    ensures var e := NearlyFull();
      ValidEntry(SampleEnv(7), e) && GrowthBlocked(SampleEnv(7), e)
  {
    SamplePlans(7, BIG_N);
    assert SampleEnv(7).isFloat(0.5);
    hide SampleEnv, ConfigOf;
    OnePart(ConfigOf(SampleEnv(7), BIG_N, 0.5), NearlyFull().items);
    hide Cut;
  }

  /** A filter takes the last item of a stage that can have no successor: whatever the item, it is
      recorded and the Add fails. */
  lemma BlockedAdd(x: Item)
    ensures SampleEnv(7).Sound()
    ensures var e := NearlyFull();
      && ValidCatalogue(SampleEnv(7), map["a" := e])
      && Serve(SampleEnv(7), map["a" := e], Call.Add("a", x)) ==
           (Failed(SizeOverflow), map["a" := e.(items := e.items + [x])])
  {
    hide SampleEnv, ConfigOf, ValidEntry, GrowthBlocked, AddResult, Serve, NearlyFull;
    BlockedEntry();
    AddFailsExactly(SampleEnv(7), map["a" := NearlyFull()], "a", x);
    assert map["a" := NearlyFull()]["a" := NearlyFull().(items := NearlyFull().items + [x])] ==
      map["a" := NearlyFull().(items := NearlyFull().items + [x])];
  }
}
