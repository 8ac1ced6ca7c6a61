/** The Filter of pkg/bloom/filter.go over a MemStore. */
module Engine {
  import opened Base
  import opened Runtime
  import opened Hashing
  import opened Decimal
  import opened Keys
  import opened Store
  import opened Sizing
  import opened Shard
  import opened Chain
  import opened Layout
  import opened Persist
  import opened Reference

  lemma AddBitsTwice(w: World, name: string, i: nat, a: set<nat>, b: set<nat>)
    requires name in w && i < |w[name].stages|
    ensures var w1 := WithStages(w, name, AddBits(w[name].stages, i, a));
      WithStages(w1, name, AddBits(w1[name].stages, i, b)) == WithStages(w, name, AddBits(w[name].stages, i, a + b))
  {
    var ch := w[name].stages;
    assert AddBits(AddBits(ch, i, a), i, b) == AddBits(ch, i, a + b) by {
      assert ch[i].bits + a + b == ch[i].bits + (a + b);
    }
  }

  lemma MoveOne(all: set<nat>, left: set<nat>, done: set<nat>, x: nat)
    requires left <= all && done == all - left && x in left
    ensures left - {x} <= all && done + {x} == all - (left - {x})
  {
  }

  lemma BitsKeepShape(w: World, name: string, i: nat, qs: set<nat>)
    requires name in w && i < |w[name].stages|
    ensures var w1 := WithStages(w, name, AddBits(w[name].stages, i, qs));
      name in w1 && i < |w1[name].stages|
  {
  }

  lemma AddNoBits(w: World, name: string, i: nat)
    requires name in w && i < |w[name].stages|
    ensures WithStages(w, name, AddBits(w[name].stages, i, {})) == w
  {
    assert w[name].stages[i].bits + {} == w[name].stages[i].bits;
    assert AddBits(w[name].stages, i, {}) == w[name].stages;
  }

  lemma GroupOffsetsSmall(positions: seq<nat>, shard: nat)
    requires shard in GroupsOf(positions)
    ensures GroupsOf(positions)[shard] != []
    ensures forall o :: o in GroupsOf(positions)[shard] ==> o < SHARD_BITS
  {
    GroupsExact(positions, shard, 0);
    forall o | o in GroupsOf(positions)[shard]
      ensures o < SHARD_BITS
    {
      GroupsExact(positions, shard, o);
    }
  }

  lemma OneMoreGroup(groups: map<nat, seq<nat>>, done: set<nat>, shard: nat)
    requires shard in groups
    ensures FlatGroups(groups, done + {shard}) == FlatGroups(groups, done) + FlatSet(shard, groups[shard])
  {
  }

  lemma ConfigTargets(env: Env, n: nat, p: real, x: Item, m: nat, k: int)
    requires env.Sound() && m >= 1
    ensures ConfigOf(env, n, p).targets(x, m, k) == Targets(env, x, m, k)
  {
  }

  lemma ConfigIsSound(env: Env, n: nat, p: real)
    requires env.Sound()
    ensures ConfigOf(env, n, p).Sound()
  {
    var cfg := ConfigOf(env, n, p);
    forall i: nat | cfg.plan(i).Ok?
      ensures cfg.plan(i).value.index == i && cfg.plan(i).value.fill == 0
      ensures cfg.plan(i).value.m >= 1 && cfg.plan(i).value.k >= 1 && cfg.plan(i).value.capacity >= 1
    {
      assert cfg.plan(i) == ComputeStage(env, n, p, DEFAULT_R, DEFAULT_S, i);
    }
  }

  lemma NoGroups(groups: map<nat, seq<nat>>)
    ensures FlatGroups(groups, {}) == {}
  {
  }

  lemma SomeGroup(groups: map<nat, seq<nat>>, shard: nat)
    requires shard in groups
    ensures FlatSet(shard, groups[shard]) <= FlatGroups(groups, groups.Keys)
  {
  }

  lemma HitIsSubset(env: Env, n: nat, p: real, x: Item, s: StageState)
    requires env.Sound() && s.m >= 1
    ensures ConfigOf(env, n, p).Hit(x, s) <==> Elements(Targets(env, x, s.m, s.k)) <= s.bits
  {
    ConfigTargets(env, n, p, x, s.m, s.k);
  }

  /** Reading one group: all its bits are set exactly when the stage holds all its flat indices. */
  lemma GroupRead(env: Env, names: Names, st: StoreState, w: World, name: string, i: nat, pos: seq<nat>, shard: nat)
    requires Family(names) && Rep(env, names, st, w) && name in w && i < |w[name].stages|
    requires shard in GroupsOf(pos)
    ensures var offsets := GroupsOf(pos)[shard];
      (forall b :: 0 <= b < |offsets| ==> GetBitsOf(st, Render(ShardKey(name, i, shard)), offsets)[b])
      <==> FlatSet(shard, offsets) <= w[name].stages[i].bits
  {
    hide Rep, Render;
    GroupOffsetsSmall(pos, shard);
    var offsets := GroupsOf(pos)[shard];
    GetBitsStep(env, names, st, w, name, i, shard, offsets);
    hide GetBitsOf;
    if FlatSet(shard, offsets) <= w[name].stages[i].bits {
      forall b | 0 <= b < |offsets|
        ensures GetBitsOf(st, Render(ShardKey(name, i, shard)), offsets)[b]
      {
        assert offsets[b] in offsets;
        assert Flat(shard, offsets[b]) in FlatSet(shard, offsets);
      }
    }
  }

  lemma HandleStageFits(env: Env, w: World, name: string, handle: seq<Stage>, i: nat)
    requires env.Sound() && ValidWorld(env, w) && name in w && HandleOk(handle, w[name].stages) && i < |handle|
    ensures handle[i].index == i && handle[i].m >= 1 && Agree(handle[i], i, w[name].stages[i])
  {
    assert ValidFilter(env, w[name]);
    assert Agree(handle[i], i, w[name].stages[i]);
    ParamsInRange(env, w[name], i);
  }

  /** A stage that can be sized after those of the chain is one the family makes room for. */
  lemma NextStageAllowed(env: Env, names: Names, st: StoreState, w: World, name: string, idx: nat)
    requires env.Sound() && Rep(env, names, st, w) && ValidWorld(env, w) && name in w
    requires idx <= |w[name].stages| && ConfigOf(env, w[name].n, w[name].p).plan(idx).Ok?
    ensures names.MayHave(name, idx)
  {
    assert ValidFilter(env, w[name]);
    var cfg := ConfigOf(env, w[name].n, w[name].p);
    forall j: nat | j <= idx
      ensures cfg.plan(j).Ok?
    {
      if j < idx {
        assert cfg.plan(j).Ok? && Agree(cfg.plan(j).value, j, w[name].stages[j]);
      }
    }
    hide ConfigOf;
    assert Attainable(env, w[name].n, w[name].p, idx);
    assert Bounded(env, names, w);
  }

  lemma ChainFitsWorld(env: Env, w: World, name: string)
    requires env.Sound() && ValidWorld(env, w) && name in w
    ensures |w[name].stages| + 1 < TWO63
  {
    assert ValidFilter(env, w[name]);
    ChainLength(env, w[name]);
  }

  lemma HandleStageSized(env: Env, w: World, name: string, handle: seq<Stage>, i: nat)
    requires env.Sound() && ValidWorld(env, w) && name in w && HandleOk(handle, w[name].stages) && i < |handle|
    ensures var plan := ConfigOf(env, w[name].n, w[name].p).plan(i);
      plan.Ok? && handle[i] == plan.value.(fill := handle[i].fill)
  {
    assert ValidFilter(env, w[name]);
    assert Agree(handle[i], i, w[name].stages[i]);
    var plan := ConfigOf(env, w[name].n, w[name].p).plan(i);
    assert plan.Ok? && Agree(plan.value, i, w[name].stages[i]);
  }

  /** bloom.Stats: a read-only copy of a handle. */
  datatype Snapshot = Snapshot(name: string, n: nat, p: real, r: real, s: real, stageCount: nat, stages: seq<Stage>)

  class Filter {
    const env: Env
    const store: MemStore
    const name: string
    const n: nat
    const p: real
    const r: real
    const s: real
    var stages: seq<Stage>

    constructor (env: Env, store: MemStore, name: string, h: Handle)
      ensures Carries(env, store, name, h)
    {
      this.env, this.store, this.name := env, store, name;
      n, p, r, s, stages := h.n, h.p, h.r, h.s, h.stages;
    }

    /** The handle was obtained from this name's filter in w: its stages are a prefix of the stored
        chain, possibly out of date in length and fill. */
    ghost predicate HandleFor(w: World)
      reads this
    {
      && name in w && n == w[name].n && p == w[name].p && r == DEFAULT_R && s == DEFAULT_S
      && stages != [] && HandleOk(stages, w[name].stages)
    }

    /** The handle's fields are those of h. */
    ghost predicate Carries(env: Env, store: MemStore, name: string, h: Handle)
      reads this
    {
      this.env == env && this.store == store && this.name == name && Handle(n, p, r, s, stages) == h
    }

    ghost function Cfg(): Config
      requires env.Sound()
    {
      ConfigOf(env, n, p)
    }

    static method New(env: Env, store: MemStore, name: string, n: nat, p: real, now: string) returns (r: Result<Filter>)
      requires env.Sound()
      modifies store
      ensures var (q, st') := NewOf(env, old(store.State()), name, n, p, now);
        && store.State() == st'
        && (q.Err? ==> r == Err(q.error))
        && (q.Ok? ==> r.Ok? && fresh(r.value) && r.value.Carries(env, store, name, q.value))
    {
      if name == "" {
        return Err(EmptyName);
      }
      if n == 0 {
        return Err(InvalidN);
      }
      if p <= 0.0 || p >= 1.0 {
        return Err(InvalidP);
      }
      var existing := store.HGetAll(Render(MetaKey(name)));
      if existing != map[] {
        return Err(FilterExists);
      }
      var stage0 := ComputeStage(env, n, p, DEFAULT_R, DEFAULT_S, 0);
      if stage0.Err? {
        return Err(stage0.error);
      }
      store.HSet(Render(MetaKey(name)), MetaFields(env, n, p, 1, now));
      store.HSet(Render(StageMetaKey(name, 0)), StageToMap(stage0.value));
      store.SAdd(Render(RegistryKey), [name]);
      var f := new Filter(env, store, name, Handle(n, p, DEFAULT_R, DEFAULT_S, [stage0.value]));
      r := Ok(f);
    }

    static method Load(env: Env, store: MemStore, name: string) returns (r: Result<Filter>)
      ensures var q := LoadOf(env, store.State(), name);
        && (q.Err? ==> r == Err(q.error))
        && (q.Ok? ==> r.Ok? && fresh(r.value) && r.value.Carries(env, store, name, q.value))
    {
      if name == "" {
        return Err(EmptyName);
      }
      var meta := store.HGetAll(Render(MetaKey(name)));
      if meta == map[] {
        return Err(FilterNotFound);
      }
      var n := ParseUint(Field(meta, "n"));
      if n.None? {
        return Err(ParseFailure);
      }
      var p := env.parseFloat(Field(meta, "p"));
      if p.None? {
        return Err(ParseFailure);
      }
      var ratio := env.parseFloat(Field(meta, "r"));
      if ratio.None? {
        return Err(ParseFailure);
      }
      var growth := env.parseFloat(Field(meta, "s"));
      if growth.None? {
        return Err(ParseFailure);
      }
      var sc := Atoi(Field(meta, STAGE_COUNT));
      if sc.None? {
        return Err(ParseFailure);
      }
      if sc.value < 0 {
        return Err(RuntimePanic);
      }
      var stages: seq<Stage> := [];
      for i := 0 to sc.value
        invariant LoadStages(store.State(), name, i) == Ok(stages)
      {
        var fields := store.HGetAll(Render(StageMetaKey(name, i)));
        var stage := MapToStage(fields, i);
        if stage.Err? {
          LoadStagesFails(store.State(), name, i + 1, sc.value);
          return Err(stage.error);
        }
        var fillText := store.Get(Render(FillKey(name, i)));
        var st := stage.value;
        if fillText.Some? {
          var fill := ParseUint(fillText.value);
          if fill.None? {
            LoadStagesFails(store.State(), name, i + 1, sc.value);
            return Err(ParseFailure);
          }
          st := st.(fill := fill.value);
        }
        stages := stages + [st];
      }
      var f := new Filter(env, store, name, Handle(n.value, p.value, ratio.value, growth.value, stages));
      r := Ok(f);
    }

    /** The SetBits calls of Add: one per shard group, in an arbitrary order. */
    method WriteBits(cur: Stage, item: Item, ghost names: Names, ghost w: World)
      requires env.Sound() && Family(names) && Rep(env, names, store.State(), w) && HandleFor(w)
      requires cur == stages[|stages| - 1] && cur.m >= 1 && cur.index == |stages| - 1
      modifies store
      ensures Rep(env, names, store.State(), WithStages(w, name, AddBitsOf(Cfg(), w[name].stages, cur.index, cur, item)))
    {
      hide Rep, Family, Probe, PositionsOf, OffsetsIn, ConfigOf;
      var (h1, h2) := HashParts(env, item);
      var pos := Positions(h1, h2, cur.m, cur.k);
      var groups := GroupByShard(pos);
      ConfigTargets(env, n, p, item, cur.m, cur.k);
      assert pos == Targets(env, item, cur.m, cur.k);
      FlatOfGroups(pos);
      NoGroups(groups);
      ghost var ch := w[name].stages;
      ghost var i := cur.index;
      ghost var done := {};
      var left := groups.Keys;
      AddNoBits(w, name, i);
      assert AddBitsOf(Cfg(), ch, i, cur, item) == AddBits(ch, i, FlatGroups(groups, groups.Keys));
      hide *;
      while left != {}
        invariant left <= groups.Keys && done == groups.Keys - left
        invariant Rep(env, names, store.State(), WithStages(w, name, AddBits(ch, i, FlatGroups(groups, done))))
        decreases |left|
      {
        var shard :| shard in left;
        MoveOne(groups.Keys, left, done, shard);
        left := left - {shard};
        GroupOffsetsSmall(pos, shard);
        ghost var w1 := WithStages(w, name, AddBits(ch, i, FlatGroups(groups, done)));
        BitsKeepShape(w, name, i, FlatGroups(groups, done));
        SetBitsStep(env, names, store.State(), w1, name, i, shard, groups[shard]);
        store.SetBits(Render(ShardKey(name, cur.index, shard)), groups[shard]);
        OneMoreGroup(groups, done, shard);
        AddBitsTwice(w, name, i, FlatGroups(groups, done), FlatSet(shard, groups[shard]));
        assert Rep(env, names, store.State(), WithStages(w, name, AddBits(ch, i, FlatGroups(groups, done + {shard}))));
        done := done + {shard};
      }
      assert done == groups.Keys;
    }

    /** Add through a current or out-of-date handle. */
    method Add(item: Item, ghost names: Names, ghost w: World) returns (q: Result<()>)
      requires env.Sound() && Family(names) && Rep(env, names, store.State(), w) && ValidWorld(env, w) && HandleFor(w)
      requires w[name].stages[|stages| - 1].fill + 1 < TWO63
      modifies this, store
      ensures var (q', ch, handle) := AddOf(Cfg(), w[name].stages, old(stages), item);
        && q == q' && stages == handle
        && Rep(env, names, store.State(), WithStages(w, name, ch)) && ValidWorld(env, WithStages(w, name, ch))
    {
      hide Rep, Family, ValidWorld, ConfigOf, AddOf, AddBitsOf, HandleStages, Render, IncrOf, CounterAt;
      var last := |stages| - 1;
      var cur := stages[last];
      AddOutline(env, w, name, stages, item);
      ghost var ch := w[name].stages;
      ghost var wrote := AddBitsOf(Cfg(), ch, last, cur, item);
      ghost var ch1 := Bump(wrote, last);
      ghost var handle1 := stages[last := cur.(fill := ch[last].fill + 1)];
      WorldOverwrite(w, name, wrote);
      WorldOverwrite(w, name, ch1);
      hide *;

      WriteBits(cur, item, names, w);

      IncrStep(env, names, store.State(), WithStages(w, name, wrote), name, last);
      var newFill := store.Incr(Render(FillKey(name, cur.index)));
      assert newFill == ch[last].fill + 1;
      stages := stages[last := cur.(fill := newFill)];
      assert HandleFor(WithStages(w, name, ch1));

      if stages[last].fill >= stages[last].capacity {
        q := AppendNewStage(names, WithStages(w, name, ch1));
      } else {
        q := Ok(());
      }
    }

    method AppendNewStage(ghost names: Names, ghost w: World) returns (q: Result<()>)
      requires env.Sound() && Family(names) && Rep(env, names, store.State(), w) && ValidWorld(env, w) && HandleFor(w)
      modifies this, store
      ensures var plan := Cfg().plan(old(|stages|));
        if plan.Err? then
          q == Err(plan.error) && stages == old(stages) && store.State() == old(store.State())
        else
          var (count, ch) := Append(w[name].stages, old(|stages|), plan.value);
          && q == Ok(())
          && stages == (if count > old(|stages|) + 1 then HandleStages(ch) else old(stages) + [plan.value])
          && Rep(env, names, store.State(), WithStages(w, name, ch))
    {
      hide Rep, Family, ValidWorld, HandleStages, StageToMap, Render, AppendStageOf, ComputeStage;
      var idx := |stages|;
      var newStage := ComputeStage(env, n, p, r, s, idx);
      assert newStage == Cfg().plan(idx);
      if newStage.Err? {
        return Err(newStage.error);
      }
      NextStageAllowed(env, names, store.State(), w, name, idx);
      ChainFitsWorld(env, w, name);
      AppendStep(env, names, store.State(), w, name, newStage.value);
      var newCount := store.AppendStage(Render(MetaKey(name)), idx, StageToMap(newStage.value), Render(StageMetaKey(name, idx)));
      ghost var (count, ch) := Append(w[name].stages, idx, newStage.value);
      match newCount
      case Err(e) =>
        q := Err(e);
      case Ok(total) =>
        if total > idx + 1 {
          assert WithStages(w, name, ch) == w;
          q := Reload(names, w);
        } else {
          stages := stages + [newStage.value];
          q := Ok(());
        }
    }

    method Reload(ghost names: Names, ghost w: World) returns (q: Result<()>)
      requires env.Sound() && Rep(env, names, store.State(), w) && ValidWorld(env, w) && name in w
      modifies this
      ensures q == Ok(()) && stages == HandleStages(w[name].stages)
    {
      LoadUnderRep(env, names, store.State(), w, name);
      var reloaded := Load(env, store, name);
      match reloaded
      case Err(e) =>
        q := Err(e);
      case Ok(f) =>
        stages := f.stages;
        q := Ok(());
    }

    static method AllTrue(bits: seq<bool>) returns (allSet: bool)
      ensures allSet <==> forall b :: 0 <= b < |bits| ==> bits[b]
    {
      allSet := true;
      for b := 0 to |bits|
        invariant allSet && forall x :: 0 <= x < b ==> bits[x]
      {
        if !bits[b] {
          allSet := false;
          break;
        }
      }
    }

    /** One stage of Exists: group by group in an arbitrary order, stopping at the first clear bit. */
    method AllSet(st: Stage, item: Item, ghost names: Names, ghost w: World) returns (allSet: bool)
      requires env.Sound() && Family(names) && Rep(env, names, store.State(), w)
      requires name in w && st.index < |w[name].stages| && Agree(st, st.index, w[name].stages[st.index]) && st.m >= 1
      ensures allSet == Cfg().Hit(item, w[name].stages[st.index])
    {
      hide Rep, Family, Probe, PositionsOf, OffsetsIn, ConfigOf;
      ghost var stored := w[name].stages[st.index].bits;
      var (h1, h2) := HashParts(env, item);
      var pos := Positions(h1, h2, st.m, st.k);
      var groups := GroupByShard(pos);
      HitIsSubset(env, n, p, item, w[name].stages[st.index]);
      assert pos == Targets(env, item, st.m, st.k);
      FlatOfGroups(pos);
      NoGroups(groups);
      var left := groups.Keys;
      ghost var done := {};
      allSet := true;
      assert Cfg().Hit(item, w[name].stages[st.index]) <==> FlatGroups(groups, groups.Keys) <= stored;
      hide *;
      while left != {}
        invariant left <= groups.Keys && done == groups.Keys - left && allSet
        invariant FlatGroups(groups, done) <= stored
        decreases |left|
      {
        var shard :| shard in left;
        MoveOne(groups.Keys, left, done, shard);
        left := left - {shard};
        GroupRead(env, names, store.State(), w, name, st.index, pos, shard);
        var bits := store.GetBits(Render(ShardKey(name, st.index, shard)), groups[shard]);
        allSet := AllTrue(bits);
        if !allSet {
          SomeGroup(groups, shard);
          return;
        }
        OneMoreGroup(groups, done, shard);
        done := done + {shard};
      }
      assert done == groups.Keys;
    }

    /** The newest-first scan over the stages the handle knows. */
    method Exists(item: Item, ghost names: Names, ghost w: World) returns (found: bool)
      requires env.Sound() && Family(names) && Rep(env, names, store.State(), w) && ValidWorld(env, w) && HandleFor(w)
      ensures found <==> Cfg().Member(item, w[name].stages[..|stages|])
    {
      hide Rep, Family, ConfigOf, ValidWorld;
      ghost var cfg, ch := Cfg(), w[name].stages;
      var i := |stages| - 1;
      while i >= 0
        invariant -1 <= i < |stages|
        invariant forall j :: i < j < |stages| ==> !cfg.Hit(item, ch[j])
      {
        HandleStageFits(env, w, name, stages, i);
        var allSet := AllSet(stages[i], item, names, w);
        if allSet {
          assert ch[..|stages|][i] == ch[i];
          return true;
        }
        i := i - 1;
      }
      found := false;
    }

    /** What a caller may rely on in a snapshot, even one of an out-of-date handle: it carries the
        stored parameters, and every stage in it is exactly as sized for its index, the fill count
        aside, which is the handle's. */
    method Stats(ghost w: World) returns (st: Snapshot)
      requires env.Sound() && ValidWorld(env, w) && HandleFor(w)
      ensures st.name == name && st.n == w[name].n && st.p == w[name].p && st.r == DEFAULT_R && st.s == DEFAULT_S
      ensures 1 <= st.stageCount == |st.stages| == |stages| <= |w[name].stages|
      ensures forall i :: 0 <= i < |st.stages| ==>
        Cfg().plan(i).Ok? && st.stages[i] == Cfg().plan(i).value.(fill := stages[i].fill)
    {
      var buf := new Stage[|stages|];
      for i := 0 to |stages|
        invariant forall j :: 0 <= j < i ==> buf[j] == stages[j]
      {
        buf[i] := stages[i];
      }
      st := Snapshot(name, n, p, r, s, |stages|, buf[..]);
      forall i | 0 <= i < |stages|
        ensures Cfg().plan(i).Ok? && stages[i] == Cfg().plan(i).value.(fill := stages[i].fill)
      {
        HandleStageSized(env, w, name, stages, i);
      }
    }

    method Drop()
      modifies store
      ensures store.State() == DropOf(old(store.State()), name, stages)
    {
      hide Render, RenderAll, DropKeys, ShardKeys;
      var keys := [Render(MetaKey(name))];
      RenderNone(name);
      for i := 0 to |stages|
        invariant keys == RenderAll(DropKeys(name, stages[..i]))
        invariant store.State() == old(store.State())
      {
        var st := stages[i];
        ghost var before := DropKeys(name, stages[..i]);
        keys := keys + [Render(StageMetaKey(name, st.index))];
        keys := keys + [Render(FillKey(name, st.index))];
        RenderSnoc(before, StageMetaKey(name, st.index));
        RenderSnoc(before + [StageMetaKey(name, st.index)], FillKey(name, st.index));
        ghost var fixed := before + [StageMetaKey(name, st.index)] + [FillKey(name, st.index)];
        var numShards := st.m / SHARD_BITS;
        if st.m % SHARD_BITS != 0 {
          numShards := numShards + 1;
        }
        ShardKeysStep(fixed, name, st.index, 0);
        for j := 0 to numShards
          invariant keys == RenderAll(fixed + ShardKeys(name, st.index, j))
          invariant store.State() == old(store.State())
        {
          ShardKeysStep(fixed, name, st.index, j);
          keys := keys + [Render(ShardKey(name, st.index, j))];
          RenderSnoc(fixed + ShardKeys(name, st.index, j), ShardKey(name, st.index, j));
        }
        DropKeysStep(name, stages, i);
      }
      assert stages[..|stages|] == stages;
      store.Del(keys);
      store.SRem(Render(RegistryKey), [name]);
    }
  }

  /** The handle still fits after the counter moved. */
  lemma BumpedHandleOk(handle: seq<Stage>, ch: Stages, wrote: Stages, last: nat)
    requires last + 1 == |handle| && HandleOk(handle, ch) && |wrote| == |ch|
    requires forall j :: 0 <= j < |ch| ==> wrote[j].m == ch[j].m && wrote[j].k == ch[j].k && wrote[j].capacity == ch[j].capacity
    ensures forall fill :: HandleOk(handle[last := handle[last].(fill := fill)], Bump(wrote, last))
  {
    forall fill: nat
      ensures HandleOk(handle[last := handle[last].(fill := fill)], Bump(wrote, last))
    {
      forall j | 0 <= j < |handle|
        ensures Agree(handle[last := handle[last].(fill := fill)][j], j, Bump(wrote, last)[j])
      {
        assert Agree(handle[j], j, ch[j]);
      }
    }
  }

  lemma RenderNone(name: string)
    ensures RenderAll(DropKeys(name, [])) == [Render(MetaKey(name))]
  {
    hide Render;
  }

  lemma ShardKeysStep(fixed: seq<Key>, name: string, stage: nat, j: nat)
    ensures fixed + ShardKeys(name, stage, 0) == fixed
    ensures fixed + ShardKeys(name, stage, j + 1) == fixed + ShardKeys(name, stage, j) + [ShardKey(name, stage, j)]
  {
  }

  lemma DropKeysStep(name: string, stages: seq<Stage>, i: nat)
    requires i < |stages|
    ensures DropKeys(name, stages[..i + 1]) ==
      DropKeys(name, stages[..i]) + [StageMetaKey(name, stages[i].index)] + [FillKey(name, stages[i].index)]
      + ShardKeys(name, stages[i].index, ShardCount(stages[i].m))
  {
    assert stages[..i + 1][..i] == stages[..i];
  }

  lemma WorldOverwrite(w: World, name: string, ch: Stages)
    requires name in w
    ensures var w1 := WithStages(w, name, ch);
      && name in w1 && w1[name] == w[name].(stages := ch)
      && forall ch2 :: WithStages(w1, name, ch2) == WithStages(w, name, ch2)
  {
  }

  /** What Add does, step by step: the stage written, the counter bumped, then perhaps growth. */
  lemma AddOutline(env: Env, w: World, name: string, handle: seq<Stage>, x: Item)
    requires env.Sound() && ValidWorld(env, w) && name in w && handle != [] && HandleOk(handle, w[name].stages)
    requires w[name].stages[|handle| - 1].fill + 1 < TWO63
    ensures var last, ch, cfg := |handle| - 1, w[name].stages, ConfigOf(env, w[name].n, w[name].p);
      var wrote := AddBitsOf(cfg, ch, last, handle[last], x);
      var ch1 := Bump(wrote, last);
      var handle1 := handle[last := handle[last].(fill := ch[last].fill + 1)];
      var plan := cfg.plan(|handle|);
      && handle[last].m >= 1 && handle[last].index == last
      && |wrote| == |ch| && wrote[last].fill == ch[last].fill
      && HandleOk(handle1, ch1) && ValidWorld(env, WithStages(w, name, ch1))
      && ValidWorld(env, WithStages(w, name, AddOf(cfg, ch, handle, x).1))
      && AddOf(cfg, ch, handle, x) ==
         if ch[last].fill + 1 < handle[last].capacity then (Ok(()), ch1, handle1)
         else if plan.Err? then (Err(plan.error), ch1, handle1)
         else
           var (count, ch2) := Append(ch1, |handle|, plan.value);
           (Ok(()), ch2, if count > |handle| + 1 then HandleStages(ch2) else handle1 + [plan.value])
  {
    hide ValidFilter, ValidWorld, ConfigOf, HandleStages;
    var last, ch, cfg := |handle| - 1, w[name].stages, ConfigOf(env, w[name].n, w[name].p);
    HandleStageFits(env, w, name, handle, last);
    AddKeepsValid(env, w, name, handle, x);
    BumpedHandleOk(handle, ch, AddBitsOf(cfg, ch, last, handle[last], x), last);
    hide WithStages;
  }

  lemma RenderSnoc(ks: seq<Key>, k: Key)
    ensures RenderAll(ks + [k]) == RenderAll(ks) + [Render(k)]
  {
  }

  lemma WrittenFilterValid(env: Env, f: FilterState, handle: seq<Stage>, item: Item)
    requires env.Sound() && ValidFilter(env, f) && handle != [] && HandleOk(handle, f.stages)
    requires f.stages[|handle| - 1].fill + 1 < TWO63
    ensures var ch1 := Bump(AddBitsOf(ConfigOf(env, f.n, f.p), f.stages, |handle| - 1, handle[|handle| - 1], item), |handle| - 1);
      ValidFilter(env, f.(stages := ch1))
  {
    var cfg, i := ConfigOf(env, f.n, f.p), |handle| - 1;
    assert Agree(handle[i], i, f.stages[i]);
    ParamsInRange(env, f, i);
    ConfigTargets(env, f.n, f.p, item, handle[i].m, handle[i].k);
    hide ConfigOf, Targets;
    var ch1 := Bump(AddBitsOf(cfg, f.stages, i, handle[i], item), i);
    forall j | 0 <= j < |ch1|
      ensures cfg.plan(j).Ok? && Agree(cfg.plan(j).value, j, ch1[j])
    {
      assert cfg.plan(j).Ok? && Agree(cfg.plan(j).value, j, f.stages[j]);
    }
  }

  lemma GrownFilterValid(env: Env, f: FilterState)
    requires env.Sound() && ValidFilter(env, f) && ConfigOf(env, f.n, f.p).plan(|f.stages|).Ok?
    ensures ValidFilter(env, f.(stages := f.stages + [Fresh(ConfigOf(env, f.n, f.p).plan(|f.stages|).value)]))
  {
    ConfigIsSound(env, f.n, f.p);
    var cfg := ConfigOf(env, f.n, f.p);
    hide ConfigOf;
    var ch := f.stages + [Fresh(cfg.plan(|f.stages|).value)];
    forall j | 0 <= j < |ch|
      ensures cfg.plan(j).Ok? && Agree(cfg.plan(j).value, j, ch[j])
    {
      if j < |f.stages| {
        assert cfg.plan(j).Ok? && Agree(cfg.plan(j).value, j, f.stages[j]);
      }
    }
  }

  /** Add keeps a world valid: bits stay below m, parameters stay planned. */
  lemma AddKeepsValid(env: Env, w: World, name: string, handle: seq<Stage>, item: Item)
    requires env.Sound() && ValidWorld(env, w) && name in w
    requires handle != [] && HandleOk(handle, w[name].stages)
    requires w[name].stages[|handle| - 1].fill + 1 < TWO63
    ensures var cfg := ConfigOf(env, w[name].n, w[name].p);
      var ch1 := Bump(AddBitsOf(cfg, w[name].stages, |handle| - 1, handle[|handle| - 1], item), |handle| - 1);
      && ValidWorld(env, WithStages(w, name, ch1))
      && ValidWorld(env, WithStages(w, name, AddOf(cfg, w[name].stages, handle, item).1))
  {
    var f := w[name];
    var cfg := ConfigOf(env, f.n, f.p);
    var i := |handle| - 1;
    assert ValidFilter(env, f);
    WrittenFilterValid(env, f, handle, item);
    var ch1 := Bump(AddBitsOf(cfg, f.stages, i, handle[i], item), i);
    var ch' := AddOf(cfg, f.stages, handle, item).1;
    if |handle| == |f.stages| && cfg.plan(|handle|).Ok? {
      GrownFilterValid(env, f.(stages := ch1));
    }
    assert ch' == ch1 || (cfg.plan(|handle|).Ok? && |handle| == |f.stages| && ch' == ch1 + [Fresh(cfg.plan(|handle|).value)]);
    hide ValidFilter, ConfigOf, AddBitsOf, AddOf, Bump;
  }
}
