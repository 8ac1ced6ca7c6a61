/** How filters are laid out in a string-keyed store: which cell every key holds. Each atomic store
    operation the engine issues is shown to be the matching operation on one filter's stage chain,
    and to leave every other filter's cells alone. */
module Layout {
  import opened Base
  import opened Runtime
  import opened Decimal
  import opened Keys
  import opened Store
  import opened Sizing
  import opened Shard
  import opened Chain

  // ---------------------------------------------------------------- persisted records

  function StageToMap(st: Stage): Fields {
    map["m" := Format(st.m), "k" := FormatInt(st.k), "capacity" := Format(st.capacity), "fill_count" := Format(st.fill)]
  }

  /** A missing Go map key reads as the empty string. */
  function Field(h: Fields, f: string): string {
    Lookup(h, f).GetOr("")
  }

  function Need<T>(o: Option<T>): Result<T> {
    if o.Some? then Ok(o.value) else Err(ParseFailure)
  }

  function MapToStage(fields: Fields, index: nat): Result<Stage> {
    var m :- Need(ParseUint(Field(fields, "m")));
    var k :- Need(Atoi(Field(fields, "k")));
    var capacity :- Need(ParseUint(Field(fields, "capacity")));
    var fill :- Need(ParseUint(Field(fields, "fill_count")));
    Ok(Stage(index, m, k, capacity, fill))
  }

  /** A stage written by stageToMap is read back unchanged by mapToStage. */
  lemma StageRoundTrip(st: Stage)
    requires st.m < TWO64 && -TWO63 <= st.k < TWO63 && st.capacity < TWO64 && st.fill < TWO64
    ensures MapToStage(StageToMap(st), st.index) == Ok(st)
    ensures StageToMap(st).Keys == {"m", "k", "capacity", "fill_count"}
    ensures ParseUint(StageToMap(st)["m"]) == Some(st.m) && Atoi(StageToMap(st)["k"]) == Some(st.k)
    ensures ParseUint(StageToMap(st)["capacity"]) == Some(st.capacity) && ParseUint(StageToMap(st)["fill_count"]) == Some(st.fill)
  {
    PrintParse(st.m);
    PrintParseInt(st.k);
    PrintParse(st.capacity);
    PrintParse(st.fill);
  }

  datatype FilterState = FilterState(n: nat, p: real, created: string, stages: Stages)

  type World = map<string, FilterState>

  function MetaFields(env: Env, n: nat, p: real, count: nat, created: string): Fields {
    map["n" := Format(n), "p" := env.formatFloat(p), "r" := env.formatFloat(DEFAULT_R),
        "s" := env.formatFloat(DEFAULT_S), STAGE_COUNT := Format(count), "created_at" := created]
  }

  /** The meta hash of a stage, with the creation-time fill seed 0. */
  function SeedStage(i: nat, s: StageState): Stage {
    Stage(i, s.m, s.k, s.capacity, 0)
  }

  /** Which states of one filter the engine can produce. */
  ghost predicate ValidFilter(env: Env, f: FilterState)
    requires env.Sound()
  {
    && 1 <= f.n < TWO64 && env.isFloat(f.p)
    && Planned(ConfigOf(env, f.n, f.p), f.stages)
    && (forall i :: 0 <= i < |f.stages| ==> f.stages[i].fill < TWO63)
    && (forall i, q :: 0 <= i < |f.stages| && q in f.stages[i].bits ==> q < f.stages[i].m)
  }

  ghost predicate ValidWorld(env: Env, w: World)
    requires env.Sound()
  {
    forall name :: name in w ==> name != "" && ValidFilter(env, w[name])
  }

  // ---------------------------------------------------------------- cells

  /** Everything a store holds under one string. */
  datatype Cell = Cell(hash: Option<Fields>, bitmap: Option<set<nat>>, counter: Option<int>, members: set<string>)

  const EMPTY_CELL := Cell(None, None, None, {})

  function CellAt(st: StoreState, x: string): Cell {
    Cell(Lookup(st.hashes, x), Lookup(st.bitmaps, x), Lookup(st.counters, x), MembersOf(st, x))
  }

  function BitsIn(bits: set<nat>, shard: nat): set<nat> {
    set q | q in bits && ShardOf(q) == shard :: OffsetOf(q)
  }

  function Expected(env: Env, w: World, k: Key): Cell {
    match k
    case RegistryKey => EMPTY_CELL.(members := w.Keys)
    case MetaKey(name) =>
      if name in w
      then EMPTY_CELL.(hash := Some(MetaFields(env, w[name].n, w[name].p, |w[name].stages|, w[name].created)))
      else EMPTY_CELL
    case StageMetaKey(name, i) =>
      if name in w && i < |w[name].stages|
      then EMPTY_CELL.(hash := Some(StageToMap(SeedStage(i, w[name].stages[i]))))
      else EMPTY_CELL
    case FillKey(name, i) =>
      if name in w && i < |w[name].stages| && w[name].stages[i].fill > 0
      then EMPTY_CELL.(counter := Some(w[name].stages[i].fill))
      else EMPTY_CELL
    case ShardKey(name, i, j) =>
      if name in w && i < |w[name].stages| && BitsIn(w[name].stages[i].bits, j) != {}
      then EMPTY_CELL.(bitmap := Some(BitsIn(w[name].stages[i].bits, j)))
      else EMPTY_CELL
  }

  /** names is the family of filter names in use; no two of them may collide. */
  ghost predicate Family(names: Names) {
    forall a, b :: a in names.all && b in names.all ==> Compatible(a, names.stages(a), b, names.stages(b))
  }

  /** Names the API admits form a family, whatever stages they may have. */
  lemma PlainFamily(names: Names)
    requires forall a :: a in names.all ==> Plain(a)
    ensures Family(names)
  {
    forall a, b | a in names.all && b in names.all
      ensures Compatible(a, names.stages(a), b, names.stages(b))
    {
      PlainNamesCompatible(a, names.stages(a), b, names.stages(b));
    }
  }

  predicate Named(names: Names, k: Key) {
    k.RegistryKey? || (k.name in names.all && Storable(names.stages(k.name), k))
  }

  /** A filter with parameters n and p can get a stage i: it and all before it can be sized. */
  ghost predicate Attainable(env: Env, n: nat, p: real, i: nat) {
    env.Sound() && forall j: nat :: j <= i ==> ConfigOf(env, n, p).plan(j).Ok?
  }

  /** The family makes room for every stage such a filter can get. */
  ghost predicate Allows(env: Env, names: Names, name: string, n: nat, p: real) {
    forall i: nat :: Attainable(env, n, p, i) ==> names.MayHave(name, i)
  }

  predicate StagesAllowed(names: Names, name: string, count: nat) {
    forall i :: 0 <= i < count ==> names.MayHave(name, i)
  }

  /** Filters of the family, with the stages it makes room for. */
  ghost predicate Bounded(env: Env, names: Names, w: World) {
    forall name :: name in w ==>
      name in names.all && Allows(env, names, name, w[name].n, w[name].p) && StagesAllowed(names, name, |w[name].stages|)
  }

  predicate Holds(env: Env, names: Names, st: StoreState, w: World, k: Key) {
    Named(names, k) ==> CellAt(st, Render(k)) == Expected(env, w, k)
  }

  ghost predicate IsKey(names: Names, x: string) {
    exists k :: Named(names, k) && Render(k) == x
  }

  ghost predicate Tidy(names: Names, st: StoreState, x: string) {
    CellAt(st, x) != EMPTY_CELL ==> IsKey(names, x)
  }

  /** The store holds exactly the filters of w: every key has its expected cell, nothing else. */
  ghost predicate Rep(env: Env, names: Names, st: StoreState, w: World) {
    && Bounded(env, names, w)
    && (forall k :: Holds(env, names, st, w, k))
    && (forall x :: Tidy(names, st, x))
  }

  /** The world determines the store, up to whether an empty set is present. */
  lemma RepDetermines(env: Env, names: Names, st1: StoreState, st2: StoreState, w: World)
    requires Rep(env, names, st1, w) && Rep(env, names, st2, w)
    ensures forall x :: CellAt(st1, x) == CellAt(st2, x)
    ensures st1.hashes == st2.hashes && st1.bitmaps == st2.bitmaps && st1.counters == st2.counters
  {
    forall x
      ensures CellAt(st1, x) == CellAt(st2, x)
    {
      assert Tidy(names, st1, x) && Tidy(names, st2, x);
      if k :| Named(names, k) && Render(k) == x {
        assert Holds(env, names, st1, w, k) && Holds(env, names, st2, w, k);
      }
    }
    SameLookups(st1.hashes, st2.hashes, x => CellAt(st1, x).hash, x => CellAt(st2, x).hash);
    SameLookups(st1.bitmaps, st2.bitmaps, x => CellAt(st1, x).bitmap, x => CellAt(st2, x).bitmap);
    SameLookups(st1.counters, st2.counters, x => CellAt(st1, x).counter, x => CellAt(st2, x).counter);
  }

  lemma SameLookups<V>(m1: map<string, V>, m2: map<string, V>, f1: string -> Option<V>, f2: string -> Option<V>)
    requires forall x :: f1(x) == Lookup(m1, x) && f2(x) == Lookup(m2, x) && f1(x) == f2(x)
    ensures m1 == m2
  {
    forall x
      ensures Lookup(m1, x) == Lookup(m2, x)
    {
      assert f1(x) == f2(x);
    }
    forall x | x in m1
      ensures x in m2 && m1[x] == m2[x]
    {
      assert Lookup(m1, x) == Lookup(m2, x);
    }
    forall x | x in m2
      ensures x in m1
    {
      assert Lookup(m1, x) == Lookup(m2, x);
    }
  }

  lemma EmptyRep(env: Env, names: Names)
    ensures Rep(env, names, EMPTY_STORE, map[])
  {
  }

  function StagesFor(names: Names, k: Key): nat -> bool {
    if k.RegistryKey? then (i: nat) => false else names.stages(k.name)
  }

  lemma NoClash(names: Names, k1: Key, k2: Key)
    requires Family(names) && Named(names, k1) && Named(names, k2) && k1 != k2
    ensures Render(k1) != Render(k2)
  {
    if Render(k1) == Render(k2) {
      RenderInjective(k1, StagesFor(names, k1), k2, StagesFor(names, k2));
    }
  }

  predicate Touches(ks: set<Key>, x: string) {
    exists k :: k in ks && Render(k) == x
  }

  /** Frame rule: writing the cells of a set of keys updates the world at exactly those keys. */
  lemma Updates(env: Env, names: Names, st: StoreState, st': StoreState, w: World, w': World, ks: set<Key>)
    requires Family(names) && Rep(env, names, st, w)
    requires Bounded(env, names, w')
    requires forall k :: k in ks ==> Named(names, k) && CellAt(st', Render(k)) == Expected(env, w', k)
    requires forall x :: !Touches(ks, x) ==> CellAt(st', x) == CellAt(st, x)
    requires forall k :: Named(names, k) && k !in ks ==> Expected(env, w', k) == Expected(env, w, k)
    ensures Rep(env, names, st', w')
  {
    forall k
      ensures Holds(env, names, st', w', k)
    {
      if Named(names, k) && k !in ks {
        assert Holds(env, names, st, w, k);
        if Touches(ks, Render(k)) {
          var other :| other in ks && Render(other) == Render(k);
          NoClash(names, k, other);
        }
      }
    }
    forall x
      ensures Tidy(names, st', x)
    {
      assert Tidy(names, st, x);
      if Touches(ks, x) {
        var k :| k in ks && Render(k) == x;
        assert Named(names, k);
      }
    }
  }

  /** Tenant isolation by the filters' own parameters: their keys are disjoint if and only if neither
      name is the other followed by ":s" and the number of a stage that the other's parameters let it
      get. */
  lemma IsolationByParameters(env: Env, a: string, n1: nat, p1: real, b: string, n2: nat, p2: real)
    requires a != b
    ensures KeysDisjoint(a, (i: nat) => Attainable(env, n1, p1, i), b, (i: nat) => Attainable(env, n2, p2, i)) <==>
      && (forall i: nat :: Attainable(env, n1, p1, i) ==> b != a + ":s" + Format(i))
      && (forall i: nat :: Attainable(env, n2, p2, i) ==> a != b + ":s" + Format(i))
  {
    hide Format, Attainable;
    var s1, s2 := (i: nat) => Attainable(env, n1, p1, i), (i: nat) => Attainable(env, n2, p2, i);
    IsolationExactly(a, s1, b, s2);
    hide KeysDisjoint;
    forall i: nat
      ensures s1(i) == Attainable(env, n1, p1, i) && s2(i) == Attainable(env, n2, p2, i)
    {
    }
  }

  lemma Singleton(k: Key, x: string)
    ensures Touches({k}, x) <==> x == Render(k)
  {
    assert k in {k};
  }

  // ---------------------------------------------------------------- atomic operations

  function AddBits(ch: Stages, i: nat, qs: set<nat>): Stages
    requires i < |ch|
  {
    ch[i := ch[i].(bits := ch[i].bits + qs)]
  }

  function FlatSet(shard: nat, offsets: seq<nat>): set<nat> {
    set o | o in offsets :: Flat(shard, o)
  }

  function WithStages(w: World, name: string, ch: Stages): World
    requires name in w
  {
    w[name := w[name].(stages := ch)]
  }

  lemma BitsInAfter(bits: set<nat>, shard: nat, offsets: seq<nat>, j: nat)
    requires forall o :: o in offsets ==> o < SHARD_BITS
    ensures BitsIn(bits + FlatSet(shard, offsets), j) ==
      BitsIn(bits, j) + if j == shard then Elements(offsets) else {}
  {
    var after := bits + FlatSet(shard, offsets);
    forall o | o in offsets
      ensures ShardOf(Flat(shard, o)) == shard && OffsetOf(Flat(shard, o)) == o
      ensures Flat(shard, o) in after
    {
      SplitJoin(0, shard, o);
    }
    forall b | b in BitsIn(after, j)
      ensures b in BitsIn(bits, j) + if j == shard then Elements(offsets) else {}
    {
      var q :| q in after && ShardOf(q) == j && OffsetOf(q) == b;
      if q !in bits {
        var o :| o in offsets && q == Flat(shard, o);
      }
    }
    if j == shard {
      forall o | o in offsets
        ensures o in BitsIn(after, j)
      {
        assert Flat(shard, o) in after;
      }
    }
  }

  lemma AddedBitsExpected(env: Env, w: World, name: string, i: nat, shard: nat, offsets: seq<nat>)
    requires name in w && i < |w[name].stages|
    requires offsets != [] && forall o :: o in offsets ==> o < SHARD_BITS
    ensures var w' := WithStages(w, name, AddBits(w[name].stages, i, FlatSet(shard, offsets)));
      && (forall k :: k != ShardKey(name, i, shard) ==> Expected(env, w', k) == Expected(env, w, k))
      && Expected(env, w', ShardKey(name, i, shard)) ==
           EMPTY_CELL.(bitmap := Some(BitsIn(w[name].stages[i].bits, shard) + Elements(offsets)))
  {
    var ch := w[name].stages;
    var w' := WithStages(w, name, AddBits(ch, i, FlatSet(shard, offsets)));
    assert w'.Keys == w.Keys;
    BitsInAfter(ch[i].bits, shard, offsets, shard);
    assert offsets[0] in Elements(offsets);
    forall k | k != ShardKey(name, i, shard)
      ensures Expected(env, w', k) == Expected(env, w, k)
    {
      if k.ShardKey? && k.name == name && k.stage == i {
        BitsInAfter(ch[i].bits, shard, offsets, k.shard);
        assert BitsIn(w'[name].stages[i].bits, k.shard) == BitsIn(ch[i].bits, k.shard);
      }
    }
  }

  /** SetBits on one shard key adds the corresponding flat bits to the stage. */
  lemma SetBitsStep(env: Env, names: Names, st: StoreState, w: World, name: string, i: nat, shard: nat, offsets: seq<nat>)
    requires Family(names) && Rep(env, names, st, w) && name in w && i < |w[name].stages|
    requires offsets != [] && forall o :: o in offsets ==> o < SHARD_BITS
    ensures Rep(env, names, SetBitsOf(st, Render(ShardKey(name, i, shard)), offsets),
      WithStages(w, name, AddBits(w[name].stages, i, FlatSet(shard, offsets))))
  {
    var k := ShardKey(name, i, shard);
    var st' := SetBitsOf(st, Render(k), offsets);
    var w' := WithStages(w, name, AddBits(w[name].stages, i, FlatSet(shard, offsets)));
    AddedBitsExpected(env, w, name, i, shard, offsets);
    assert names.MayHave(name, i);
    assert Holds(env, names, st, w, k);
    assert Lookup(st.bitmaps, Render(k)).GetOr({}) == BitsIn(w[name].stages[i].bits, shard);
    hide Expected, Render, BitsIn, AddBits, FlatSet;
    forall x | !Touches({k}, x)
      ensures CellAt(st', x) == CellAt(st, x)
    {
      Singleton(k, x);
    }
    assert w'.Keys == w.Keys;
    Updates(env, names, st, st', w, w', {k});
  }

  /** GetBits on one shard key reads the stage's flat bits. */
  lemma GetBitsStep(env: Env, names: Names, st: StoreState, w: World, name: string, i: nat, shard: nat, offsets: seq<nat>)
    requires Family(names) && Rep(env, names, st, w) && name in w && i < |w[name].stages|
    requires forall o :: o in offsets ==> o < SHARD_BITS
    ensures var bits := GetBitsOf(st, Render(ShardKey(name, i, shard)), offsets);
      |bits| == |offsets| &&
      forall x :: 0 <= x < |bits| ==> bits[x] == (Flat(shard, offsets[x]) in w[name].stages[i].bits)
  {
    var k := ShardKey(name, i, shard);
    var stored := w[name].stages[i].bits;
    assert names.MayHave(name, i);
    assert Holds(env, names, st, w, k);
    assert Lookup(st.bitmaps, Render(k)).GetOr({}) == BitsIn(stored, shard);
    forall x | 0 <= x < |offsets|
      ensures offsets[x] in BitsIn(stored, shard) <==> Flat(shard, offsets[x]) in stored
    {
      assert offsets[x] in offsets;
      SplitJoin(0, shard, offsets[x]);
      if offsets[x] in BitsIn(stored, shard) {
        var q :| q in stored && ShardOf(q) == shard && OffsetOf(q) == offsets[x];
        SplitJoin(q, 0, 0);
      }
    }
  }

  lemma CellsAfterIncr(st: StoreState, key: string)
    requires CellAt(st, key).counter.GetOr(0) + 1 < TWO63 && CellAt(st, key).counter.GetOr(0) >= 0
    ensures var st', next := IncrOf(st, key), CellAt(st, key).counter.GetOr(0) + 1;
      && CounterAt(st', key) == next && CellAt(st', key) == CellAt(st, key).(counter := Some(next))
      && forall x :: x != key ==> CellAt(st', x) == CellAt(st, x)
  {
  }

  lemma BumpedExpected(env: Env, w: World, name: string, i: nat)
    requires name in w && i < |w[name].stages|
    ensures var w' := WithStages(w, name, Bump(w[name].stages, i));
      forall k :: k != FillKey(name, i) ==> Expected(env, w', k) == Expected(env, w, k)
  {
    hide BitsIn;
    assert WithStages(w, name, Bump(w[name].stages, i)).Keys == w.Keys;
  }

  /** Incr on the fill key bumps the stage's counter and returns the new value. */
  lemma IncrStep(env: Env, names: Names, st: StoreState, w: World, name: string, i: nat)
    requires Family(names) && Rep(env, names, st, w) && name in w && i < |w[name].stages|
    requires w[name].stages[i].fill + 1 < TWO63
    ensures var st' := IncrOf(st, Render(FillKey(name, i)));
      && CounterAt(st', Render(FillKey(name, i))) == w[name].stages[i].fill + 1
      && Rep(env, names, st', WithStages(w, name, Bump(w[name].stages, i)))
  {
    hide Render, BitsIn, Tidy, StageToMap, MetaFields, Format, IncrOf, CellAt;
    var k := FillKey(name, i);
    var st' := IncrOf(st, Render(k));
    var w' := WithStages(w, name, Bump(w[name].stages, i));
    assert names.MayHave(name, i);
    assert Holds(env, names, st, w, k);
    CellsAfterIncr(st, Render(k));
    forall x | !Touches({k}, x)
      ensures CellAt(st', x) == CellAt(st, x)
    {
      Singleton(k, x);
    }
    assert w'.Keys == w.Keys;
    BumpedExpected(env, w, name, i);
    hide Expected, Holds, Touches;
    Updates(env, names, st, st', w, w', {k});
  }

  /** Appending an empty stage changes what two keys should hold and no other. */
  lemma FreshStageExpected(env: Env, w: World, name: string, stage: Stage)
    requires name in w
    ensures var w' := WithStages(w, name, w[name].stages + [Fresh(stage)]);
      forall k :: k != MetaKey(name) && k != StageMetaKey(name, |w[name].stages|) ==> Expected(env, w', k) == Expected(env, w, k)
  {
    var w' := WithStages(w, name, w[name].stages + [Fresh(stage)]);
    assert w'.Keys == w.Keys;
    forall k: Key | k != MetaKey(name) && k != StageMetaKey(name, |w[name].stages|)
      ensures Expected(env, w', k) == Expected(env, w, k)
    {
      if k.ShardKey? {
        assert BitsIn({}, k.shard) == {};
      }
    }
  }

  lemma CellsAfterAppend(st: StoreState, count: nat, mk: string, fields: Fields, sk: string)
    requires mk != sk && mk in st.hashes && Lookup(st.hashes[mk], STAGE_COUNT) == Some(Format(count)) && count + 1 < TWO63
    ensures var (r, st') := AppendStageOf(st, mk, count, fields, sk);
      && r == Ok(count + 1)
      && CellAt(st', mk) == CellAt(st, mk).(hash := Some(st.hashes[mk][STAGE_COUNT := Format(count + 1)]))
      && CellAt(st', sk) == CellAt(st, sk).(hash := Some(fields))
      && forall x :: x != mk && x != sk ==> CellAt(st', x) == CellAt(st, x)
  {
    hide Format, Scan;
    PrintParse(count);
  }

  lemma CountFieldAdvances(env: Env, n: nat, p: real, count: nat, created: string)
    ensures MetaFields(env, n, p, count, created)[STAGE_COUNT := Format(count + 1)] == MetaFields(env, n, p, count + 1, created)
    ensures Lookup(MetaFields(env, n, p, count, created), STAGE_COUNT) == Some(Format(count))
  {
    hide Format;
  }

  lemma AppendWins(env: Env, names: Names, st: StoreState, w: World, name: string, stage: Stage)
    requires Family(names) && Rep(env, names, st, w) && name in w && |w[name].stages| + 1 < TWO63
    requires stage.fill == 0 && stage.index == |w[name].stages| && names.MayHave(name, stage.index)
    ensures var (r, st') := AppendStageOf(st, Render(MetaKey(name)), stage.index, StageToMap(stage), Render(StageMetaKey(name, stage.index)));
      r == Ok(stage.index + 1) && Rep(env, names, st', WithStages(w, name, w[name].stages + [Fresh(stage)]))
  {
    hide Format, Render, AppendStageOf, StageToMap, MetaFields;
    var mk, sk := MetaKey(name), StageMetaKey(name, stage.index);
    var f := w[name];
    var w' := WithStages(w, name, f.stages + [Fresh(stage)]);
    assert Holds(env, names, st, w, mk) && Holds(env, names, st, w, sk);
    NoClash(names, mk, sk);
    CountFieldAdvances(env, f.n, f.p, stage.index, f.created);
    CellsAfterAppend(st, stage.index, Render(mk), StageToMap(stage), Render(sk));
    FreshStageExpected(env, w, name, stage);
    assert SeedStage(stage.index, w'[name].stages[stage.index]) == stage;
    var st' := AppendStageOf(st, Render(mk), stage.index, StageToMap(stage), Render(sk)).1;
    assert CellAt(st', Render(sk)) == Expected(env, w', sk);
    assert CellAt(st', Render(mk)) == Expected(env, w', mk);
    hide Expected, CellAt;
    forall x | !Touches({mk, sk}, x)
      ensures CellAt(st', x) == CellAt(st, x)
    {
      assert mk in {mk, sk} && sk in {mk, sk};
    }
    assert w'.Keys == w.Keys;
    Updates(env, names, st, st', w, w', {mk, sk});
  }

  /** AppendStage is the atomic compare-and-append on the stage chain. */
  lemma AppendStep(env: Env, names: Names, st: StoreState, w: World, name: string, stage: Stage)
    requires Family(names) && Rep(env, names, st, w) && name in w && |w[name].stages| + 1 < TWO63
    requires stage.fill == 0 && names.MayHave(name, stage.index)
    ensures var (r, st') := AppendStageOf(st, Render(MetaKey(name)), stage.index, StageToMap(stage), Render(StageMetaKey(name, stage.index)));
      var (count, ch) := Append(w[name].stages, stage.index, stage);
      r == Ok(count) && Rep(env, names, st', WithStages(w, name, ch))
  {
    if |w[name].stages| == stage.index {
      AppendWins(env, names, st, w, name, stage);
    } else {
      hide Format, Scan, Render;
      assert Holds(env, names, st, w, MetaKey(name));
      PrintParse(|w[name].stages|);
      assert WithStages(w, name, w[name].stages) == w;
    }
  }
}
