/** New, Load and Drop of pkg/bloom/filter.go as functions of the store, for any store content, and
    what they do to a store that holds a valid world of filters. */
module Persist {
  import opened Base
  import opened Runtime
  import opened Decimal
  import opened Keys
  import opened Store
  import opened Sizing
  import opened Shard
  import opened Chain
  import opened Layout

  /** The fields a Filter handle carries besides its name and store. */
  datatype Handle = Handle(n: nat, p: real, r: real, s: real, stages: seq<Stage>)

  /** The stage list a fresh Load of a chain yields. */
  function HandleStages(ch: Stages): seq<Stage> {
    seq(|ch|, i requires 0 <= i < |ch| => Stage(i, ch[i].m, ch[i].k, ch[i].capacity, ch[i].fill))
  }

  // ---------------------------------------------------------------- Load

  /** One iteration of Load: the stage hash, then the live counter over its seed. */
  function LoadStageAt(st: StoreState, name: string, i: nat): Result<Stage> {
    var stage :- MapToStage(HGetAllOf(st, Render(StageMetaKey(name, i))), i);
    match GetOf(st, Render(FillKey(name, i)))
    case None => Ok(stage)
    case Some(text) =>
      var fill :- Need(ParseUint(text));
      Ok(stage.(fill := fill))
  }

  function LoadStages(st: StoreState, name: string, count: nat): (r: Result<seq<Stage>>)
    ensures r.Ok? ==> |r.value| == count
  {
    if count == 0 then Ok([])
    else
      var front :- LoadStages(st, name, count - 1);
      var last :- LoadStageAt(st, name, count - 1);
      Ok(front + [last])
  }

  /** Load on any store, malformed ones included. A negative stage count panics. */
  function LoadOf(env: Env, st: StoreState, name: string): Result<Handle> {
    if name == "" then Err(EmptyName)
    else
      var meta := HGetAllOf(st, Render(MetaKey(name)));
      if meta == map[] then Err(FilterNotFound)
      else
        var n :- Need(ParseUint(Field(meta, "n")));
        var p :- Need(env.parseFloat(Field(meta, "p")));
        var r :- Need(env.parseFloat(Field(meta, "r")));
        var s :- Need(env.parseFloat(Field(meta, "s")));
        var count :- Need(Atoi(Field(meta, STAGE_COUNT)));
        if count < 0 then Err(RuntimePanic)
        else
          var stages :- LoadStages(st, name, count);
          Ok(Handle(n, p, r, s, stages))
  }

  lemma {:induction false} LoadStagesFails(st: StoreState, name: string, i: nat, j: nat)
    requires i <= j && LoadStages(st, name, i).Err?
    ensures LoadStages(st, name, j) == LoadStages(st, name, i)
  {
    if i < j {
      LoadStagesFails(st, name, i, j - 1);
    }
  }

  lemma ParamsInRange(env: Env, f: FilterState, i: nat)
    requires env.Sound() && ValidFilter(env, f) && i < |f.stages|
    ensures var s := f.stages[i]; 1 <= s.m < TWO64 && 1 <= s.k < TWO63 && 1 <= s.capacity < TWO64
    ensures i < 64
  {
    var cfg := ConfigOf(env, f.n, f.p);
    assert cfg.plan(i).Ok? && Agree(cfg.plan(i).value, i, f.stages[i]);
    assert cfg.plan(i) == ComputeStage(env, f.n, f.p, DEFAULT_R, DEFAULT_S, i);
    AtMost64Stages(env, f.n, f.p, i);
  }

  lemma StoredStage(env: Env, names: Names, st: StoreState, w: World, name: string, i: nat)
    requires Rep(env, names, st, w) && name in w && i < |w[name].stages|
    ensures var s := w[name].stages[i];
      && HGetAllOf(st, Render(StageMetaKey(name, i))) == StageToMap(SeedStage(i, s))
      && GetOf(st, Render(FillKey(name, i))) == if s.fill > 0 then Some(Format(s.fill)) else None
  {
    hide Render, StageToMap, Format;
    assert names.MayHave(name, i);
    assert Holds(env, names, st, w, StageMetaKey(name, i)) && Holds(env, names, st, w, FillKey(name, i));
  }

  lemma LoadStageUnderRep(env: Env, names: Names, st: StoreState, w: World, name: string, i: nat)
    requires env.Sound() && Rep(env, names, st, w) && ValidWorld(env, w)
    requires name in w && i < |w[name].stages|
    ensures LoadStageAt(st, name, i) == Ok(HandleStages(w[name].stages)[i])
  {
    var s := w[name].stages[i];
    assert ValidFilter(env, w[name]);
    ParamsInRange(env, w[name], i);
    assert s.fill < TWO63;
    StoredStage(env, names, st, w, name, i);
    hide Rep, ValidWorld, ValidFilter, Render, StageToMap, MapToStage, Format, ParseUint, HGetAllOf, GetOf;
    StageRoundTrip(SeedStage(i, s));
    PrintParse(s.fill);
  }

  lemma {:induction false} LoadStagesUnderRep(env: Env, names: Names, st: StoreState, w: World, name: string, count: nat)
    requires env.Sound() && Rep(env, names, st, w) && ValidWorld(env, w)
    requires name in w && count <= |w[name].stages|
    ensures LoadStages(st, name, count) == Ok(HandleStages(w[name].stages)[..count])
  {
    hide Rep, ValidWorld, LoadStageAt;
    var all := HandleStages(w[name].stages);
    if count > 0 {
      LoadStagesUnderRep(env, names, st, w, name, count - 1);
      LoadStageUnderRep(env, names, st, w, name, count - 1);
      assert all[..count] == all[..count - 1] + [all[count - 1]];
    }
  }

  lemma ChainLength(env: Env, f: FilterState)
    requires env.Sound() && ValidFilter(env, f)
    ensures 1 <= |f.stages| <= 64
  {
    ParamsInRange(env, f, |f.stages| - 1);
  }

  lemma ChainFits(env: Env, f: FilterState)
    requires env.Sound() && ValidFilter(env, f)
    ensures f.n < TWO64 && env.isFloat(f.p) && |f.stages| < TWO63 && |HandleStages(f.stages)| == |f.stages|
  {
    ChainLength(env, f);
  }

  /** Load finds exactly the live names, and reads a filter back as it was written. */
  lemma LoadUnderRep(env: Env, names: Names, st: StoreState, w: World, name: string)
    requires env.Sound() && Rep(env, names, st, w) && ValidWorld(env, w) && name in names.all
    ensures LoadOf(env, st, name) ==
      if name == "" then Err(EmptyName)
      else if name !in w then Err(FilterNotFound)
      else Ok(Handle(w[name].n, w[name].p, DEFAULT_R, DEFAULT_S, HandleStages(w[name].stages)))
  {
    hide ValidFilter, MetaFields, Render, LoadStages, HandleStages, Field, StageToMap, Format, ParseUint, Atoi, Tidy;
    assert Holds(env, names, st, w, MetaKey(name));
    if name in w {
      var f := w[name];
      assert ValidFilter(env, f);
      hide Rep, ValidWorld;
      ChainFits(env, f);
      MetaReadBack(env, f.n, f.p, |f.stages|, f.created);
      LoadStagesUnderRep(env, names, st, w, name, |f.stages|);
      assert HandleStages(f.stages)[..|HandleStages(f.stages)|] == HandleStages(f.stages);
    }
  }

  lemma MetaReadBack(env: Env, n: nat, p: real, count: nat, created: string)
    requires env.Sound() && n < TWO64 && env.isFloat(p) && count < TWO63
    ensures var meta := MetaFields(env, n, p, count, created);
      && meta != map[]
      && ParseUint(Field(meta, "n")) == Some(n) && env.parseFloat(Field(meta, "p")) == Some(p)
      && env.parseFloat(Field(meta, "r")) == Some(DEFAULT_R) && env.parseFloat(Field(meta, "s")) == Some(DEFAULT_S)
      && Atoi(Field(meta, STAGE_COUNT)) == Some(count) && Field(meta, "created_at") == created
      && meta.Keys == {"n", "p", "r", "s", "stage_count", "created_at"}
  {
    hide Format, ParseUint, Atoi;
    PrintParse(n);
    PrintParse(count);
    var meta := MetaFields(env, n, p, count, created);
    assert "n" in meta;
  }

  // ---------------------------------------------------------------- New

  function NewOf(env: Env, st: StoreState, name: string, n: nat, p: real, now: string): (Result<Handle>, StoreState)
    requires env.Sound()
  {
    if name == "" then (Err(EmptyName), st)
    else if n == 0 then (Err(InvalidN), st)
    else if p <= 0.0 || p >= 1.0 then (Err(InvalidP), st)
    else if HGetAllOf(st, Render(MetaKey(name))) != map[] then (Err(FilterExists), st)
    else
      var stage0 := ComputeStage(env, n, p, DEFAULT_R, DEFAULT_S, 0);
      if stage0.Err? then (Err(stage0.error), st)
      else
        (Ok(Handle(n, p, DEFAULT_R, DEFAULT_S, [stage0.value])), Created(env, st, name, n, p, now, stage0.value))
  }

  lemma NewFilterExpected(env: Env, w: World, name: string, f: FilterState)
    requires name !in w && |f.stages| == 1 && f.stages[0].fill == 0 && f.stages[0].bits == {}
    ensures forall k :: k != RegistryKey && k != MetaKey(name) && k != StageMetaKey(name, 0) ==>
      Expected(env, w[name := f], k) == Expected(env, w, k)
  {
    var w' := w[name := f];
    forall k | k != RegistryKey && k != MetaKey(name) && k != StageMetaKey(name, 0)
      ensures Expected(env, w', k) == Expected(env, w, k)
    {
      if k.ShardKey? {
        assert BitsIn({}, k.shard) == {};
      }
    }
  }

  lemma CellsAfterNew(st: StoreState, mk: string, meta: Fields, sk: string, fields: Fields, rk: string, name: string)
    requires mk != sk && mk != rk && sk != rk
    requires CellAt(st, mk) == EMPTY_CELL && CellAt(st, sk) == EMPTY_CELL
    ensures var st' := SAddOf(HSetOf(HSetOf(st, mk, meta), sk, fields), rk, [name]);
      && CellAt(st', mk) == EMPTY_CELL.(hash := Some(meta))
      && CellAt(st', sk) == EMPTY_CELL.(hash := Some(fields))
      && CellAt(st', rk) == CellAt(st, rk).(members := MembersOf(st, rk) + {name})
      && forall x :: x != mk && x != sk && x != rk ==> CellAt(st', x) == CellAt(st, x)
  {
    hide HSetOf, SAddOf, CellAt, MembersOf;
    var st1 := HSetOf(st, mk, meta);
    var st2 := HSetOf(st1, sk, fields);
    HSetCells(st, mk, meta);
    HSetCells(st1, sk, fields);
    RegisterCells(st2, rk, name);
    MembersFromCell(st, rk);
    MembersFromCell(st2, rk);
  }

  lemma HSetCells(st: StoreState, key: string, fields: Fields)
    requires CellAt(st, key) == EMPTY_CELL
    ensures var st' := HSetOf(st, key, fields);
      && CellAt(st', key) == EMPTY_CELL.(hash := Some(fields))
      && forall x :: x != key ==> CellAt(st', x) == CellAt(st, x)
  {
    assert map[] + fields == fields;
  }

  lemma RegisterCells(st: StoreState, rk: string, name: string)
    ensures var st' := SAddOf(st, rk, [name]);
      && CellAt(st', rk) == CellAt(st, rk).(members := MembersOf(st, rk) + {name})
      && forall x :: x != rk ==> CellAt(st', x) == CellAt(st, x)
  {
    assert Elements([name]) == {name};
  }

  lemma MembersFromCell(st: StoreState, key: string)
    ensures CellAt(st, key).members == MembersOf(st, key)
  {
  }

  /** Why a filter cannot be created, in the order the reasons are checked. */
  function CreateError(env: Env, name: string, n: nat, p: real, live: bool): (e: Option<Error>)
    requires env.Sound()
    ensures e.None? ==> name != "" && n > 0 && 0.0 < p < 1.0 && !live && ComputeStage(env, n, p, DEFAULT_R, DEFAULT_S, 0).Ok?
  {
    if name == "" then Some(EmptyName)
    else if n == 0 then Some(InvalidN)
    else if p <= 0.0 || p >= 1.0 then Some(InvalidP)
    else if live then Some(FilterExists)
    else
      match ComputeStage(env, n, p, DEFAULT_R, DEFAULT_S, 0)
      case Err(e) => Some(e)
      case Ok(_) => None
  }

  /** A name's meta hash is there exactly when the filter is. */
  lemma MetaPresent(env: Env, names: Names, st: StoreState, w: World, name: string)
    requires Rep(env, names, st, w) && name in names.all
    ensures HGetAllOf(st, Render(MetaKey(name))) != map[] <==> name in w
  {
    hide Render;
    assert Holds(env, names, st, w, MetaKey(name));
    if name in w {
      assert "n" in MetaFields(env, w[name].n, w[name].p, |w[name].stages|, w[name].created);
    }
  }

  lemma FirstStageAllowed(env: Env, names: Names, name: string, n: nat, p: real)
    requires env.Sound() && Allows(env, names, name, n, p) && ComputeStage(env, n, p, DEFAULT_R, DEFAULT_S, 0).Ok?
    ensures names.MayHave(name, 0)
  {
    assert ConfigOf(env, n, p).plan(0) == ComputeStage(env, n, p, DEFAULT_R, DEFAULT_S, 0);
    assert Attainable(env, n, p, 0);
  }

  /** A filter whose name is free is created with an empty stage 0 and no stale bits or counts;
      everything else in the store stays as it was. */
  lemma NewUnderRep(env: Env, names: Names, st: StoreState, w: World, name: string, n: nat, p: real, now: string)
    requires env.Sound() && Family(names) && Rep(env, names, st, w) && ValidWorld(env, w) && name in names.all
    requires n < TWO64 && env.isFloat(p) && Allows(env, names, name, n, p)
    ensures var (r, st') := NewOf(env, st, name, n, p, now);
      match CreateError(env, name, n, p, name in w)
      case Some(e) => (r, st') == (Err(e), st)
      case None =>
        var stage0 := ComputeStage(env, n, p, DEFAULT_R, DEFAULT_S, 0).value;
        var w' := w[name := FilterState(n, p, now, [Fresh(stage0)])];
        && r == Ok(Handle(n, p, DEFAULT_R, DEFAULT_S, [stage0]))
        && Rep(env, names, st', w') && ValidWorld(env, w')
  {
    hide Rep, Family, Render, ComputeStage, ValidFilter, Created, HGetAllOf;
    MetaPresent(env, names, st, w, name);
    var stage0 := ComputeStage(env, n, p, DEFAULT_R, DEFAULT_S, 0);
    if name !in w && name != "" && n > 0 && 0.0 < p < 1.0 && stage0.Ok? {
      NewFilterValid(env, n, p, now);
      FirstStageAllowed(env, names, name, n, p);
      NewSucceeds(env, names, st, w, name, n, p, now, stage0.value);
    }
  }

  /** The three writes of New. */
  function Created(env: Env, st: StoreState, name: string, n: nat, p: real, now: string, stage0: Stage): StoreState {
    var st1 := HSetOf(st, Render(MetaKey(name)), MetaFields(env, n, p, 1, now));
    var st2 := HSetOf(st1, Render(StageMetaKey(name, 0)), StageToMap(stage0));
    SAddOf(st2, Render(RegistryKey), [name])
  }

  lemma FreeCells(env: Env, names: Names, st: StoreState, w: World, name: string)
    requires Family(names) && Rep(env, names, st, w) && name in names.all && name !in w && names.MayHave(name, 0)
    ensures var mk, sk, rk := Render(MetaKey(name)), Render(StageMetaKey(name, 0)), Render(RegistryKey);
      && mk != sk && mk != rk && sk != rk
      && CellAt(st, mk) == EMPTY_CELL && CellAt(st, sk) == EMPTY_CELL
      && CellAt(st, rk) == EMPTY_CELL.(members := w.Keys)
  {
    hide Render;
    var mk, sk, rk := MetaKey(name), StageMetaKey(name, 0), RegistryKey;
    assert Holds(env, names, st, w, mk) && Holds(env, names, st, w, sk) && Holds(env, names, st, w, rk);
    NoClash(names, mk, sk);
    NoClash(names, mk, rk);
    NoClash(names, sk, rk);
  }

  lemma Untouched(ks: set<Key>, k: Key, x: string)
    requires k in ks && !Touches(ks, x)
    ensures x != Render(k)
  {
    hide Render;
  }

  lemma CreatedCells(env: Env, names: Names, st: StoreState, w: World, name: string, n: nat, p: real, now: string, stage0: Stage)
    requires env.Sound() && Family(names) && Rep(env, names, st, w) && name in names.all && name !in w
    requires stage0.index == 0 && stage0.fill == 0 && names.MayHave(name, 0) && Allows(env, names, name, n, p)
    ensures var st' := Created(env, st, name, n, p, now, stage0);
      var w' := w[name := FilterState(n, p, now, [Fresh(stage0)])];
      var ks := {MetaKey(name), StageMetaKey(name, 0), RegistryKey};
      && (forall k :: k in ks ==> CellAt(st', Render(k)) == Expected(env, w', k))
      && (forall x :: !Touches(ks, x) ==> CellAt(st', x) == CellAt(st, x))
  {
    hide Rep, Family, Render, StageToMap, MetaFields, HSetOf, SAddOf, BitsIn, CellAt, Touches;
    var f := FilterState(n, p, now, [Fresh(stage0)]);
    var w' := w[name := f];
    assert SeedStage(0, f.stages[0]) == stage0;
    FreeCells(env, names, st, w, name);
    var mk, sk, rk := MetaKey(name), StageMetaKey(name, 0), RegistryKey;
    CellsAfterNew(st, Render(mk), MetaFields(env, n, p, 1, now), Render(sk), StageToMap(stage0), Render(rk), name);
    MembersFromCell(st, Render(rk));
    assert w'.Keys == w.Keys + {name};
    var ks := {mk, sk, rk};
    var st' := Created(env, st, name, n, p, now, stage0);
    assert forall k :: k in ks ==> CellAt(st', Render(k)) == Expected(env, w', k);
    hide Expected, Created;
    forall x | !Touches(ks, x)
      ensures x != Render(mk) && x != Render(sk) && x != Render(rk)
    {
      Untouched(ks, mk, x);
      Untouched(ks, sk, x);
      Untouched(ks, rk, x);
    }
  }

  lemma NewSucceeds(env: Env, names: Names, st: StoreState, w: World, name: string, n: nat, p: real, now: string, stage0: Stage)
    requires env.Sound() && Family(names) && Rep(env, names, st, w) && name in names.all && name !in w
    requires stage0.index == 0 && stage0.fill == 0 && names.MayHave(name, 0) && Allows(env, names, name, n, p)
    ensures Rep(env, names, Created(env, st, name, n, p, now, stage0), w[name := FilterState(n, p, now, [Fresh(stage0)])])
  {
    hide Render, Expected, CellAt, Created, Holds, Tidy, Family, Touches;
    var f := FilterState(n, p, now, [Fresh(stage0)]);
    CreatedCells(env, names, st, w, name, n, p, now, stage0);
    NewFilterExpected(env, w, name, f);
    assert Bounded(env, names, w[name := f]);
    hide Rep, Bounded;
    Updates(env, names, st, Created(env, st, name, n, p, now, stage0), w, w[name := f], {MetaKey(name), StageMetaKey(name, 0), RegistryKey});
  }

  lemma NewFilterValid(env: Env, n: nat, p: real, now: string)
    requires env.Sound() && 1 <= n < TWO64 && env.isFloat(p)
    requires ComputeStage(env, n, p, DEFAULT_R, DEFAULT_S, 0).Ok?
    ensures ValidFilter(env, FilterState(n, p, now, [Fresh(ComputeStage(env, n, p, DEFAULT_R, DEFAULT_S, 0).value)]))
  {
    var cfg := ConfigOf(env, n, p);
    assert cfg.plan(0) == ComputeStage(env, n, p, DEFAULT_R, DEFAULT_S, 0);
  }

  // ---------------------------------------------------------------- Drop

  function StageDropKeys(name: string, st: Stage): seq<Key> {
    [StageMetaKey(name, st.index), FillKey(name, st.index)] + ShardKeys(name, st.index, ShardCount(st.m))
  }

  function ShardKeys(name: string, stage: nat, count: nat): seq<Key> {
    seq(count, j requires 0 <= j < count => ShardKey(name, stage, j))
  }

  /** The keys Drop deletes, in the order it lists them. */
  function DropKeys(name: string, stages: seq<Stage>): seq<Key> {
    if stages == [] then [MetaKey(name)]
    else DropKeys(name, stages[..|stages| - 1]) + StageDropKeys(name, stages[|stages| - 1])
  }

  function RenderAll(ks: seq<Key>): seq<string> {
    seq(|ks|, i requires 0 <= i < |ks| => Render(ks[i]))
  }

  function DropOf(st: StoreState, name: string, stages: seq<Stage>): StoreState {
    SRemOf(DelOf(st, RenderAll(DropKeys(name, stages))), Render(RegistryKey), [name])
  }

  lemma {:induction false} DropKeysMembers(name: string, stages: seq<Stage>, k: Key)
    ensures k in DropKeys(name, stages) ==> !k.RegistryKey? && k.name == name
    ensures MetaKey(name) in DropKeys(name, stages)
    ensures forall i :: 0 <= i < |stages| ==>
      && StageMetaKey(name, stages[i].index) in DropKeys(name, stages)
      && FillKey(name, stages[i].index) in DropKeys(name, stages)
      && (k.ShardKey? && k.name == name && k.stage == stages[i].index && k.shard < ShardCount(stages[i].m) ==>
          k in DropKeys(name, stages))
  {
    if stages != [] {
      var front, last := stages[..|stages| - 1], stages[|stages| - 1];
      DropKeysMembers(name, front, k);
      var ks := StageDropKeys(name, last);
      assert ks[0] == StageMetaKey(name, last.index) && ks[1] == FillKey(name, last.index);
      if k.ShardKey? && k.name == name && k.stage == last.index && k.shard < ShardCount(last.m) {
        assert ks[2 + k.shard] == k;
      }
      forall i | 0 <= i < |stages|
        ensures StageMetaKey(name, stages[i].index) in DropKeys(name, stages)
        ensures FillKey(name, stages[i].index) in DropKeys(name, stages)
        ensures k.ShardKey? && k.name == name && k.stage == stages[i].index && k.shard < ShardCount(stages[i].m) ==>
          k in DropKeys(name, stages)
      {
        if i < |front| {
          assert front[i] == stages[i];
        }
      }
    }
  }

  lemma {:induction false} DropKeysStorable(names: Names, name: string, stages: seq<Stage>, k: Key)
    requires k in DropKeys(name, stages) && forall i :: 0 <= i < |stages| ==> names.MayHave(name, stages[i].index)
    ensures Storable(names.stages(name), k)
  {
    if stages != [] && k !in StageDropKeys(name, stages[|stages| - 1]) {
      DropKeysStorable(names, name, stages[..|stages| - 1], k);
    }
  }

  /** Nothing a valid filter ever stored escapes the list a current handle drops. */
  lemma DropListComplete(env: Env, w: World, name: string, k: Key)
    requires env.Sound() && ValidWorld(env, w) && name in w
    requires !k.RegistryKey? && k.name == name && Expected(env, w, k) != EMPTY_CELL
    ensures k in DropKeys(name, HandleStages(w[name].stages))
  {
    var ch := w[name].stages;
    var handle := HandleStages(ch);
    DropKeysMembers(name, handle, k);
    if !k.MetaKey? {
      assert handle[k.stage].index == k.stage;
      if k.ShardKey? {
        var o :| o in BitsIn(ch[k.stage].bits, k.shard);
        var q :| q in ch[k.stage].bits && ShardOf(q) == k.shard && OffsetOf(q) == o;
        ShardBelowCount(q, ch[k.stage].m);
      }
    }
  }

  lemma CellsAfterDrop(st: StoreState, keys: seq<string>, rk: string, name: string)
    requires rk !in keys
    ensures var st' := SRemOf(DelOf(st, keys), rk, [name]);
      && (forall x :: x in keys ==> CellAt(st', x) == EMPTY_CELL)
      && CellAt(st', rk) == CellAt(st, rk).(members := MembersOf(st, rk) - {name})
      && forall x :: x !in keys && x != rk ==> CellAt(st', x) == CellAt(st, x)
  {
    assert Elements([name]) == {name};
  }

  lemma RenderedMember(ks: seq<Key>, x: string)
    ensures x in RenderAll(ks) <==> exists k :: k in ks && Render(k) == x
  {
    if x in RenderAll(ks) {
      var i :| 0 <= i < |ks| && RenderAll(ks)[i] == x;
      assert ks[i] in ks;
    }
    if k :| k in ks && Render(k) == x {
      var i :| 0 <= i < |ks| && ks[i] == k;
      assert RenderAll(ks)[i] == x;
    }
  }

  /** Drop through a current handle removes the filter and nothing else: the store is as if the
      filter had never been created, up to an empty registry. */
  lemma DropUnderRep(env: Env, names: Names, st: StoreState, w: World, name: string)
    requires env.Sound() && Family(names) && Rep(env, names, st, w) && ValidWorld(env, w) && name in w
    ensures Rep(env, names, DropOf(st, name, HandleStages(w[name].stages)), w - {name})
    ensures ValidWorld(env, w - {name})
  {
    hide Render, ValidFilter, DropKeys, HandleStages, RenderAll, Holds, Tidy;
    ListedAreNamed(env, names, w, name);
    assert Bounded(env, names, w - {name});
    var list := DropKeys(name, HandleStages(w[name].stages));
    var keys, rk := RenderAll(list), Render(RegistryKey);
    var w', st' := w - {name}, DropOf(st, name, HandleStages(w[name].stages));
    var ks := Elements(list) + {RegistryKey};
    forall k | k in list
      ensures Named(names, k) && !k.RegistryKey? && k.name == name && Render(k) in keys
    {
      RenderedMember(list, Render(k));
    }
    RegistryNotDropped(names, list);
    CellsAfterDrop(st, keys, rk, name);
    RegistryCell(env, names, st, w);
    assert w'.Keys == w.Keys - {name};
    forall k | k in ks
      ensures CellAt(st', Render(k)) == Expected(env, w', k)
    {
    }
    DroppedExpected(env, names, w, name);
    hide Expected, CellAt, DropOf;
    forall x | !Touches(ks, x)
      ensures CellAt(st', x) == CellAt(st, x)
    {
      TouchedByDrop(list, x);
    }
    Updates(env, names, st, st', w, w', ks);
  }

  lemma RegistryCell(env: Env, names: Names, st: StoreState, w: World)
    requires Rep(env, names, st, w)
    ensures CellAt(st, Render(RegistryKey)) == Expected(env, w, RegistryKey)
  {
    hide CellAt, Expected;
    assert Holds(env, names, st, w, RegistryKey);
  }

  lemma ListedAreNamed(env: Env, names: Names, w: World, name: string)
    requires Bounded(env, names, w) && name in w
    ensures forall k :: k in DropKeys(name, HandleStages(w[name].stages)) ==>
      Named(names, k) && !k.RegistryKey? && k.name == name
  {
    var handle := HandleStages(w[name].stages);
    forall k | k in DropKeys(name, handle)
      ensures Named(names, k) && !k.RegistryKey? && k.name == name
    {
      DropKeysMembers(name, handle, k);
      DropKeysStorable(names, name, handle, k);
    }
  }

  lemma TouchedByDrop(list: seq<Key>, x: string)
    ensures x in RenderAll(list) || x == Render(RegistryKey) ==> Touches(Elements(list) + {RegistryKey}, x)
  {
    var ks := Elements(list) + {RegistryKey};
    assert RegistryKey in ks;
    RenderedMember(list, x);
    if x in RenderAll(list) {
      var k :| k in list && Render(k) == x;
      assert k in ks;
    }
  }

  lemma RegistryNotDropped(names: Names, list: seq<Key>)
    requires Family(names) && forall k :: k in list ==> Named(names, k) && !k.RegistryKey?
    ensures Render(RegistryKey) !in RenderAll(list)
  {
    RenderedMember(list, Render(RegistryKey));
    if k :| k in list && Render(k) == Render(RegistryKey) {
      NoClash(names, k, RegistryKey);
    }
  }

  lemma DroppedExpected(env: Env, names: Names, w: World, name: string)
    requires env.Sound() && ValidWorld(env, w) && name in w
    ensures forall k :: Named(names, k) && k !in DropKeys(name, HandleStages(w[name].stages)) && k != RegistryKey ==>
      Expected(env, w - {name}, k) == Expected(env, w, k)
  {
    forall k | Named(names, k) && k !in DropKeys(name, HandleStages(w[name].stages)) && k != RegistryKey
      ensures Expected(env, w - {name}, k) == Expected(env, w, k)
    {
      if k.name == name && Expected(env, w, k) != EMPTY_CELL {
        DropListComplete(env, w, name, k);
      }
    }
  }
}
