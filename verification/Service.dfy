/** internal/service/service.go: every call loads a fresh handle, then operates on it. The service is
    proved to behave as a catalogue from live names to parameters and added items. */
module Service {
  import opened Base
  import opened Runtime
  import opened Keys
  import opened Store
  import opened Sizing
  import opened Chain
  import opened Layout
  import opened Persist
  import opened Reference
  import opened Engine

  datatype FilterInfo = FilterInfo(name: string, stages: nat, m: nat, k: int)
  datatype StageInfo = StageInfo(index: nat, m: nat, k: int, capacity: nat, fill: nat)
  datatype FilterStats = FilterStats(name: string, n: nat, p: real, r: real, s: real, stageCount: nat, stages: seq<StageInfo>)

  function MapErr(e: Error): Error {
    match e
    case FilterExists => ServiceAlreadyExists
    case FilterNotFound => ServiceNotFound
    case EmptyName => ServiceInvalidArgument
    case InvalidN => ServiceInvalidArgument
    case InvalidP => ServiceInvalidArgument
    case _ => e
  }

  // ---------------------------------------------------------------- the reference catalogue

  datatype Entry = Entry(n: nat, p: real, created: string, items: seq<Item>)

  type Catalogue = map<string, Entry>

  ghost predicate ValidEntry(env: Env, e: Entry)
    requires env.Sound()
  {
    && 1 <= e.n < TWO64 && env.isFloat(e.p) && |e.items| < TWO63
    && ConfigOf(env, e.n, e.p).Sound() && ConfigOf(env, e.n, e.p).plan(0).Ok?
  }

  ghost predicate ValidCatalogue(env: Env, cat: Catalogue)
    requires env.Sound()
  {
    forall name :: name in cat ==> name != "" && ValidEntry(env, cat[name])
  }

  ghost function StateOf(env: Env, e: Entry): FilterState
    requires env.Sound() && ValidEntry(env, e)
  {
    FilterState(e.n, e.p, e.created, StagesOf(ConfigOf(env, e.n, e.p), e.items))
  }

  ghost function WorldOf(env: Env, cat: Catalogue): World
    requires env.Sound() && ValidCatalogue(env, cat)
  {
    map name | name in cat :: StateOf(env, cat[name])
  }

  datatype Call =
    | Create(name: string, n: nat, p: real, now: string)
    | Add(name: string, item: Item)
    | Exists(name: string, item: Item)
    | Stats(name: string)
    | Delete(name: string)

  datatype Reply =
    | Created(info: FilterInfo) | Added | Found(found: bool) | Statistics(stats: FilterStats) | Deleted
    | Failed(error: Error)

  function InfoOf(st: Stage): StageInfo {
    StageInfo(st.index, st.m, st.k, st.capacity, st.fill)
  }

  function InfosOf(stages: seq<Stage>): seq<StageInfo> {
    seq(|stages|, i requires 0 <= i < |stages| => InfoOf(stages[i]))
  }

  ghost function StatsOf(env: Env, name: string, e: Entry): FilterStats
    requires env.Sound() && ValidEntry(env, e)
  {
    var stages := HandleStages(StateOf(env, e).stages);
    FilterStats(name, e.n, e.p, DEFAULT_R, DEFAULT_S, |stages|, InfosOf(stages))
  }

  /** The reference service: what one call replies, and the catalogue after it. */
  ghost function Serve(env: Env, cat: Catalogue, call: Call): (Reply, Catalogue)
    requires env.Sound() && ValidCatalogue(env, cat)
  {
    if call.name == "" then (Failed(ServiceInvalidArgument), cat)
    else match call
      case Create(name, n, p, now) =>
        (match CreateError(env, name, n, p, name in cat)
         case Some(e) => (Failed(MapErr(e)), cat)
         case None =>
           var stage0 := ComputeStage(env, n, p, DEFAULT_R, DEFAULT_S, 0).value;
           (Created(FilterInfo(name, 1, stage0.m, stage0.k)), cat[name := Entry(n, p, now, [])]))
      case Add(name, item) =>
        if name !in cat then (Failed(ServiceNotFound), cat)
        else
          var e := cat[name].(items := cat[name].items + [item]);
          var r := AddResult(ConfigOf(env, e.n, e.p), e.items);
          (if r.Err? then Failed(MapErr(r.error)) else Added, cat[name := e])
      case Exists(name, item) =>
        if name !in cat then (Failed(ServiceNotFound), cat)
        else (Found(MaybeAdded(ConfigOf(env, cat[name].n, cat[name].p), cat[name].items, item)), cat)
      case Stats(name) =>
        if name !in cat then (Failed(ServiceNotFound), cat)
        else (Statistics(StatsOf(env, name, cat[name])), cat)
      case Delete(name) =>
        if name !in cat then (Failed(ServiceNotFound), cat)
        else (Deleted, cat - {name})
  }

  /** What the machine types admit: a 64-bit n, a float64 p, and counters short of int64. */
  ghost predicate Admissible(env: Env, names: Names, cat: Catalogue, call: Call) {
    && call.name in names.all
    && (call.Create? ==> call.n < TWO64 && env.isFloat(call.p) && Allows(env, names, call.name, call.n, call.p))
    && (call.Add? && call.name in cat ==> |cat[call.name].items| + 1 < TWO63)
  }

  lemma ServeKeepsValid(env: Env, names: Names, cat: Catalogue, call: Call)
    requires env.Sound() && ValidCatalogue(env, cat) && Admissible(env, names, cat, call)
    ensures ValidCatalogue(env, Serve(env, cat, call).1)
  {
    if call.Create? {
      ConfigIsSound(env, call.n, call.p);
      assert ConfigOf(env, call.n, call.p).plan(0) == ComputeStage(env, call.n, call.p, DEFAULT_R, DEFAULT_S, 0);
    }
  }

  // ---------------------------------------------------------------- catalogue and world

  lemma {:induction false} PartWithin(parts: seq<seq<Item>>, i: nat)
    requires i < |parts|
    ensures |parts[i]| <= |Flatten(parts)|
  {
    if i > 0 {
      PartWithin(parts[1..], i - 1);
    }
  }

  lemma StateIsValid(env: Env, e: Entry)
    requires env.Sound() && ValidEntry(env, e)
    ensures ValidFilter(env, StateOf(env, e))
  {
    var cfg := ConfigOf(env, e.n, e.p);
    var c, ch := Cut(cfg, e.items, 0), StagesOf(cfg, e.items);
    StagesOfAt(cfg, e.items);
    CutExact(cfg, e.items, 0);
    forall i | 0 <= i < |ch|
      ensures cfg.plan(i).Ok? && Agree(cfg.plan(i).value, i, ch[i]) && ch[i].fill < TWO63
    {
      assert Sizable(cfg, i) && ch[i] == Filled(cfg, i, c[i]);
      PartWithin(c, i);
    }
    forall i, q | 0 <= i < |ch| && q in ch[i].bits
      ensures q < ch[i].m
    {
      assert Sizable(cfg, i) && ch[i] == Filled(cfg, i, c[i]);
      TargetsBelow(env, e, i, c[i], q);
    }
  }

  lemma TargetsBelow(env: Env, e: Entry, i: nat, items: seq<Item>, q: nat)
    requires env.Sound() && Sizable(ConfigOf(env, e.n, e.p), i)
    requires var st := ConfigOf(env, e.n, e.p).plan(i).value; q in BitsOf(ConfigOf(env, e.n, e.p), items, st.m, st.k)
    ensures q < ConfigOf(env, e.n, e.p).plan(i).value.m
  {
    var cfg := ConfigOf(env, e.n, e.p);
    var st := cfg.plan(i).value;
    var x :| x in items && q in cfg.targets(x, st.m, st.k);
    ConfigIsSound(env, e.n, e.p);
    ConfigTargets(env, e.n, e.p, x, st.m, st.k);
  }

  lemma WorldIsValid(env: Env, cat: Catalogue)
    requires env.Sound() && ValidCatalogue(env, cat)
    ensures ValidWorld(env, WorldOf(env, cat))
    ensures WorldOf(env, cat).Keys == cat.Keys
  {
    forall name | name in cat
      ensures ValidFilter(env, WorldOf(env, cat)[name])
    {
      StateIsValid(env, cat[name]);
    }
  }

  lemma WorldUpdate(env: Env, cat: Catalogue, name: string, e: Entry)
    requires env.Sound() && ValidCatalogue(env, cat) && name != "" && ValidEntry(env, e)
    ensures ValidCatalogue(env, cat[name := e])
    ensures WorldOf(env, cat[name := e]) == WorldOf(env, cat)[name := StateOf(env, e)]
  {
    hide ValidEntry, StateOf;
  }

  lemma WorldRemove(env: Env, cat: Catalogue, name: string)
    requires env.Sound() && ValidCatalogue(env, cat)
    ensures ValidCatalogue(env, cat - {name})
    ensures WorldOf(env, cat - {name}) == WorldOf(env, cat) - {name}
  {
    hide ValidEntry, StateOf;
  }

  lemma WorldAfterCreate(env: Env, cat: Catalogue, name: string, n: nat, p: real, now: string)
    requires env.Sound() && ValidCatalogue(env, cat) && name != ""
    requires ValidEntry(env, Entry(n, p, now, []))
    ensures var e := Entry(n, p, now, []);
      && ValidCatalogue(env, cat[name := e])
      && WorldOf(env, cat[name := e]) ==
          WorldOf(env, cat)[name := FilterState(n, p, now, [Fresh(ConfigOf(env, n, p).plan(0).value)])]
  {
    var cfg := ConfigOf(env, n, p);
    StagesOfAt(cfg, []);
    assert Cut(cfg, [], 0) == [[]] by {
      assert CapacityAt(cfg, 0) > 0;
    }
    assert Sizable(cfg, 0);
    EmptyFilled(cfg, 0);
    assert StagesOf(cfg, []) == [Fresh(cfg.plan(0).value)];
    WorldUpdate(env, cat, name, Entry(n, p, now, []));
  }

  lemma WorldAfterAdd(env: Env, cat: Catalogue, name: string, item: Item)
    requires env.Sound() && ValidCatalogue(env, cat) && name in cat && |cat[name].items| + 1 < TWO63
    ensures var e := cat[name];
      var cfg, ch := ConfigOf(env, e.n, e.p), StateOf(env, e).stages;
      var (r, ch', _) := AddOf(cfg, ch, HandleStages(ch), item);
      && ValidCatalogue(env, cat[name := e.(items := e.items + [item])])
      && WithStages(WorldOf(env, cat), name, ch') == WorldOf(env, cat[name := e.(items := e.items + [item])])
      && r == AddResult(cfg, e.items + [item])
  {
    var e := cat[name];
    var e' := e.(items := e.items + [item]);
    AddIsAppend(ConfigOf(env, e.n, e.p), e.items, item);
    assert ValidEntry(env, e) && ValidEntry(env, e');
    WorldUpdate(env, cat, name, e');
    hide ConfigOf, AddOf, StagesOf, AddResult, ValidEntry, ValidCatalogue;
  }

  lemma NewestFillBound(env: Env, e: Entry)
    requires env.Sound() && ValidEntry(env, e)
    ensures var ch := StateOf(env, e).stages; ch != [] && ch[|ch| - 1].fill <= |e.items|
  {
    hide ConfigOf;
    NewestPartBound(ConfigOf(env, e.n, e.p), e.items);
  }

  lemma NewestPartBound(cfg: Config, items: seq<Item>)
    requires cfg.Sound() && cfg.plan(0).Ok?
    ensures var ch := StagesOf(cfg, items); ch != [] && ch[|ch| - 1].fill <= |items|
  {
    StagesOfAt(cfg, items);
    CutExact(cfg, items, 0);
    hide Cut, StagesOf, Flatten;
    var c := Cut(cfg, items, 0);
    PartWithin(c, |c| - 1);
    assert StagesOf(cfg, items)[|c| - 1] == Filled(cfg, |c| - 1, c[|c| - 1]);
  }

  lemma HandleOfOwnChain(ch: Stages)
    ensures HandleOk(HandleStages(ch), ch) && |HandleStages(ch)| == |ch|
  {
  }

  /** The Load every call starts with, seen from the catalogue. */
  lemma LoadFinds(env: Env, names: Names, st: StoreState, cat: Catalogue, name: string)
    requires env.Sound() && ValidCatalogue(env, cat) && Rep(env, names, st, WorldOf(env, cat)) && name in names.all
    ensures LoadOf(env, st, name) ==
      if name == "" then Err(EmptyName)
      else if name !in cat then Err(FilterNotFound)
      else Ok(Handle(cat[name].n, cat[name].p, DEFAULT_R, DEFAULT_S, HandleStages(StateOf(env, cat[name]).stages)))
    ensures ValidWorld(env, WorldOf(env, cat)) && WorldOf(env, cat).Keys == cat.Keys
    ensures name in cat ==> WorldOf(env, cat)[name] == StateOf(env, cat[name])
  {
    WorldIsValid(env, cat);
    LoadUnderRep(env, names, st, WorldOf(env, cat), name);
  }

  lemma CreateServes(env: Env, names: Names, st: StoreState, cat: Catalogue, name: string, n: nat, p: real, now: string)
    requires env.Sound() && Family(names) && ValidCatalogue(env, cat) && Rep(env, names, st, WorldOf(env, cat))
    requires Admissible(env, names, cat, Create(name, n, p, now))
    ensures var (r, st') := NewOf(env, st, name, n, p, now);
      var (reply, cat') := Serve(env, cat, Create(name, n, p, now));
      && ValidCatalogue(env, cat') && Rep(env, names, st', WorldOf(env, cat'))
      && (r.Err? ==> reply == Failed(MapErr(r.error)) && cat' == cat)
      && (r.Ok? ==> |r.value.stages| == 1 && cat' == cat[name := Entry(n, p, now, [])])
      && (r.Ok? ==> reply == Created(FilterInfo(name, 1, r.value.stages[0].m, r.value.stages[0].k)))
  {
    WorldIsValid(env, cat);
    NewUnderRep(env, names, st, WorldOf(env, cat), name, n, p, now);
    hide Rep, Family, WorldOf, ValidCatalogue, NewOf, ValidWorld, ComputeStage;
    if CreateError(env, name, n, p, name in cat).None? {
      CreatedWorld(env, cat, name, n, p, now);
    }
  }

  lemma CreatedWorld(env: Env, cat: Catalogue, name: string, n: nat, p: real, now: string)
    requires env.Sound() && ValidCatalogue(env, cat) && name != "" && 1 <= n < TWO64 && env.isFloat(p)
    requires ComputeStage(env, n, p, DEFAULT_R, DEFAULT_S, 0).Ok?
    ensures ValidCatalogue(env, cat[name := Entry(n, p, now, [])])
    ensures WorldOf(env, cat[name := Entry(n, p, now, [])]) ==
      WorldOf(env, cat)[name := FilterState(n, p, now, [Fresh(ComputeStage(env, n, p, DEFAULT_R, DEFAULT_S, 0).value)])]
  {
    ConfigIsSound(env, n, p);
    assert ConfigOf(env, n, p).plan(0) == ComputeStage(env, n, p, DEFAULT_R, DEFAULT_S, 0);
    WorldAfterCreate(env, cat, name, n, p, now);
  }

  lemma FreshChain(env: Env, e: Entry)
    requires env.Sound() && ValidEntry(env, e) && e.items == []
    ensures HandleStages(StateOf(env, e).stages) == [ConfigOf(env, e.n, e.p).plan(0).value]
  {
    var cfg := ConfigOf(env, e.n, e.p);
    assert Cut(cfg, [], 0) == [[]] by {
      assert CapacityAt(cfg, 0) > 0;
    }
    StagesOfAt(cfg, []);
    assert Sizable(cfg, 0);
    EmptyFilled(cfg, 0);
    hide ConfigOf, StagesOf, Filled, ValidEntry;
    assert StagesOf(cfg, [])[0] == Fresh(cfg.plan(0).value);
  }

  lemma StartsCurrent(env: Env, cat: Catalogue, name: string)
    requires env.Sound() && ValidCatalogue(env, cat) && name in cat && cat[name].items == []
    ensures var e := cat[name];
      && ValidEntry(env, e) && name in WorldOf(env, cat)
      && HandleStages(WorldOf(env, cat)[name].stages) == [ConfigOf(env, e.n, e.p).plan(0).value]
      && ConfigOf(env, e.n, e.p).plan(0) == ComputeStage(env, e.n, e.p, DEFAULT_R, DEFAULT_S, 0)
  {
    assert ValidEntry(env, cat[name]);
    FreshChain(env, cat[name]);
    hide ValidEntry, HandleStages, StateOf;
  }

  lemma AddServes(env: Env, names: Names, st: StoreState, cat: Catalogue, name: string, item: Item)
    requires env.Sound() && ValidCatalogue(env, cat) && Rep(env, names, st, WorldOf(env, cat)) && name in cat && name in names.all
    requires |cat[name].items| + 1 < TWO63
    ensures var e, w := cat[name], WorldOf(env, cat);
      var ch := w[name].stages;
      var (r, ch', _) := AddOf(ConfigOf(env, e.n, e.p), ch, HandleStages(ch), item);
      var (reply, cat') := Serve(env, cat, Add(name, item));
      && ch != [] && |HandleStages(ch)| == |ch| && HandleOk(HandleStages(ch), ch) && ch[|ch| - 1].fill + 1 < TWO63
      && name != "" && ValidCatalogue(env, cat') && cat' == cat[name := e.(items := e.items + [item])]
      && WithStages(w, name, ch') == WorldOf(env, cat')
      && reply == if r.Err? then Failed(MapErr(r.error)) else Added
  {
    assert ValidEntry(env, cat[name]);
    NewestFillBound(env, cat[name]);
    WorldAfterAdd(env, cat, name, item);
    HandleOfOwnChain(StateOf(env, cat[name]).stages);
    hide Rep, ConfigOf, AddOf, ValidCatalogue, ValidEntry, StagesOf, HandleStages, HandleOk, AddResult;
    assert WorldOf(env, cat)[name] == StateOf(env, cat[name]);
  }

  lemma ExistsServes(env: Env, cat: Catalogue, name: string, item: Item)
    requires env.Sound() && ValidCatalogue(env, cat) && name in cat
    ensures var e, ch := cat[name], WorldOf(env, cat)[name].stages;
      && ch != [] && WorldOf(env, cat)[name].n == e.n && WorldOf(env, cat)[name].p == e.p
      && Serve(env, cat, Call.Exists(name, item)) == (Found(ConfigOf(env, e.n, e.p).Member(item, ch)), cat)
  {
    var e := cat[name];
    assert name != "" && ValidEntry(env, e);
    hide ConfigOf, ValidEntry, ValidCatalogue, StagesOf, MaybeAdded;
    MembershipExact(ConfigOf(env, e.n, e.p), e.items, item);
  }

  /** The handle New returns shows the whole chain of the new filter. */
  lemma FreshHandle(env: Env, cat: Catalogue, name: string)
    requires env.Sound() && ValidCatalogue(env, cat) && name in cat && cat[name].items == []
    ensures var w, e := WorldOf(env, cat), cat[name];
      && ValidWorld(env, w) && name in w && w[name].n == e.n && w[name].p == e.p
      && ValidEntry(env, e) && ConfigOf(env, e.n, e.p).plan(0).Ok?
      && HandleOk([ConfigOf(env, e.n, e.p).plan(0).value], w[name].stages)
      && ConfigOf(env, e.n, e.p).plan(0) == ComputeStage(env, e.n, e.p, DEFAULT_R, DEFAULT_S, 0)
  {
    WorldIsValid(env, cat);
    assert ValidEntry(env, cat[name]);
    StartsCurrent(env, cat, name);
    HandleOfOwnChain(WorldOf(env, cat)[name].stages);
    hide ValidWorld, HandleOk, ConfigOf, StagesOf;
  }

  lemma StatsServes(env: Env, cat: Catalogue, name: string)
    requires env.Sound() && ValidCatalogue(env, cat) && name in cat
    ensures var e, w := cat[name], WorldOf(env, cat);
      var stages := HandleStages(w[name].stages);
      && stages != [] && w[name].n == e.n && w[name].p == e.p && HandleOk(stages, w[name].stages)
      && Planned(ConfigOf(env, e.n, e.p), w[name].stages)
      && Serve(env, cat, Call.Stats(name)) ==
           (Statistics(FilterStats(name, e.n, e.p, DEFAULT_R, DEFAULT_S, |stages|, InfosOf(stages))), cat)
  {
    assert name != "" && ValidEntry(env, cat[name]);
    hide ConfigOf, StagesOf, InfosOf;
    StateIsValid(env, cat[name]);
    HandleOfOwnChain(StateOf(env, cat[name]).stages);
    NonEmptyStages(ConfigOf(env, cat[name].n, cat[name].p), cat[name].items);
  }

  lemma NonEmptyStages(cfg: Config, items: seq<Item>)
    requires cfg.Sound() && cfg.plan(0).Ok?
    ensures StagesOf(cfg, items) != []
  {
  }

  /** A snapshot of a current handle is that handle's list. */
  lemma SameStages(a: seq<Stage>, b: seq<Stage>, cfg: Config, ch: Stages)
    requires |a| == |b| && HandleOk(b, ch) && Planned(cfg, ch)
    requires forall i :: 0 <= i < |a| ==> cfg.plan(i).Ok? && a[i] == cfg.plan(i).value.(fill := b[i].fill)
    ensures a == b
  {
    forall i | 0 <= i < |a|
      ensures a[i] == b[i]
    {
      assert Agree(b[i], i, ch[i]) && Agree(cfg.plan(i).value, i, ch[i]);
    }
  }

  lemma DeleteServes(env: Env, names: Names, st: StoreState, cat: Catalogue, name: string)
    requires name in names.all
    requires env.Sound() && Family(names) && ValidCatalogue(env, cat) && Rep(env, names, st, WorldOf(env, cat)) && name in cat
    ensures Serve(env, cat, Delete(name)) == (Deleted, cat - {name})
    ensures ValidCatalogue(env, cat - {name})
    ensures Rep(env, names, DropOf(st, name, HandleStages(StateOf(env, cat[name]).stages)), WorldOf(env, cat - {name}))
  {
    hide Rep, Family, DropOf, ValidWorld, ValidEntry, StagesOf, StateOf, HandleStages, ConfigOf;
    assert name != "";
    hide ValidCatalogue;
    WorldIsValid(env, cat);
    assert WorldOf(env, cat)[name] == StateOf(env, cat[name]);
    DropUnderRep(env, names, st, WorldOf(env, cat), name);
    WorldRemove(env, cat, name);
  }

  /** Calls on a name that is empty or not live. */
  lemma ServeWithoutFilter(env: Env, cat: Catalogue, call: Call)
    requires env.Sound() && ValidCatalogue(env, cat) && !call.Create?
    ensures call.name == "" ==> Serve(env, cat, call) == (Failed(ServiceInvalidArgument), cat)
    ensures call.name != "" && call.name !in cat ==> Serve(env, cat, call) == (Failed(ServiceNotFound), cat)
  {
  }

  lemma WholePrefix<T>(s: seq<T>)
    ensures s[..|s|] == s
  {
  }

  // ---------------------------------------------------------------- the service

  class FilterService {
    const env: Env
    const store: MemStore
    ghost const names: Names
    ghost var cat: Catalogue

    /** The store holds exactly what the catalogue says. */
    ghost predicate Valid()
      reads this, store
    {
      && env.Sound() && Family(names) && ValidCatalogue(env, cat)
      && Rep(env, names, store.State(), WorldOf(env, cat))
    }

    /** A service may start over any store that holds valid filters. */
    constructor (env: Env, store: MemStore, ghost names: Names, ghost cat: Catalogue)
      requires env.Sound() && Family(names) && ValidCatalogue(env, cat)
      requires Rep(env, names, store.State(), WorldOf(env, cat))
      ensures Valid() && this.cat == cat && this.env == env && this.store == store && this.names == names
    {
      this.env, this.store, this.names, this.cat := env, store, names, cat;
    }

    method Create(name: string, n: nat, p: real, now: string) returns (r: Result<FilterInfo>)
      requires Valid() && Admissible(env, names, cat, Call.Create(name, n, p, now))
      modifies this, store
      ensures Valid()
      ensures Serve(env, old(cat), Call.Create(name, n, p, now)) == (if r.Ok? then Created(r.value) else Failed(r.error), cat)
    {
      hide Rep, Family, ValidCatalogue, ValidWorld, WorldOf, Serve, Admissible, ComputeStage;
      CreateServes(env, names, store.State(), cat, name, n, p, now);
      var f := Filter.New(env, store, name, n, p, now);
      match f
      case Err(e) =>
        r := Err(MapErr(e));
      case Ok(filter) =>
        cat := cat[name := Entry(n, p, now, [])];
        FreshHandle(env, cat, name);
        ghost var w := WorldOf(env, cat);
        assert filter.HandleFor(w);
        var st := filter.Stats(w);
        r := Ok(FilterInfo(st.name, st.stageCount, st.stages[0].m, st.stages[0].k));
    }

    method Add(name: string, item: Item) returns (r: Result<()>)
      requires Valid() && Admissible(env, names, cat, Call.Add(name, item))
      modifies this, store
      ensures Valid()
      ensures Serve(env, old(cat), Call.Add(name, item)) == (if r.Ok? then Added else Failed(r.error), cat)
    {
      hide Rep, Family, ValidCatalogue, ValidWorld, WorldOf, StagesOf, HandleStages, HandleOk, ConfigOf, LoadOf, AddOf, DropOf, Serve;
      LoadFinds(env, names, store.State(), cat, name);
      ServeWithoutFilter(env, cat, Call.Add(name, item));
      var f := Filter.Load(env, store, name);
      match f
      case Err(e) =>
        r := Err(MapErr(e));
      case Ok(filter) =>
        AddServes(env, names, store.State(), cat, name, item);
        ghost var w := WorldOf(env, cat);
        assert filter.HandleFor(w);
        assert filter.stages == HandleStages(w[name].stages) && filter.Cfg() == ConfigOf(env, cat[name].n, cat[name].p);
        var q := filter.Add(item, names, w);
        cat := cat[name := cat[name].(items := cat[name].items + [item])];
        r := match q case Err(e) => Err(MapErr(e)) case Ok(_) => Ok(());
    }

    method Exists(name: string, item: Item) returns (r: Result<bool>)
      requires Valid() && Admissible(env, names, cat, Call.Exists(name, item))
      ensures Serve(env, cat, Call.Exists(name, item)) == (if r.Ok? then Found(r.value) else Failed(r.error), cat)
    {
      hide Rep, Family, ValidCatalogue, ValidWorld, WorldOf, StateOf, HandleStages, HandleOk, ConfigOf, LoadOf, Serve, MaybeAdded;
      ghost var w := WorldOf(env, cat);
      LoadFinds(env, names, store.State(), cat, name);
      ServeWithoutFilter(env, cat, Call.Exists(name, item));
      var f := Filter.Load(env, store, name);
      match f
      case Err(e) =>
        r := Err(MapErr(e));
      case Ok(filter) =>
        ExistsServes(env, cat, name, item);
        HandleOfOwnChain(w[name].stages);
        assert filter.HandleFor(w);
        var found := filter.Exists(item, names, w);
        WholePrefix(w[name].stages);
        r := Ok(found);
    }

    method Stats(name: string) returns (r: Result<FilterStats>)
      requires Valid() && Admissible(env, names, cat, Call.Stats(name))
      ensures Serve(env, cat, Call.Stats(name)) == (if r.Ok? then Statistics(r.value) else Failed(r.error), cat)
    {
      hide Rep, Family, ValidCatalogue, ValidWorld, WorldOf, StateOf, HandleStages, HandleOk, ConfigOf, LoadOf, Serve;
      ghost var w := WorldOf(env, cat);
      LoadFinds(env, names, store.State(), cat, name);
      ServeWithoutFilter(env, cat, Call.Stats(name));
      var f := Filter.Load(env, store, name);
      match f
      case Err(e) =>
        r := Err(MapErr(e));
      case Ok(filter) =>
        StatsServes(env, cat, name);
        assert filter.HandleFor(w);
        var st := filter.Stats(w);
        SameStages(st.stages, filter.stages, filter.Cfg(), w[name].stages);
        var infos := ToInfos(st.stages);
        r := Ok(FilterStats(st.name, st.n, st.p, st.r, st.s, st.stageCount, infos));
    }

    static method ToInfos(stages: seq<Stage>) returns (infos: seq<StageInfo>)
      ensures infos == InfosOf(stages)
      ensures |infos| == |stages|
      ensures forall i :: 0 <= i < |stages| ==>
        && infos[i].index == stages[i].index && infos[i].m == stages[i].m && infos[i].k == stages[i].k
        && infos[i].capacity == stages[i].capacity && infos[i].fill == stages[i].fill
    {
      infos := [];
      for i := 0 to |stages|
        invariant infos == InfosOf(stages[..i])
      {
        assert InfosOf(stages[..i + 1]) == InfosOf(stages[..i]) + [InfoOf(stages[i])];
        infos := infos + [StageInfo(stages[i].index, stages[i].m, stages[i].k, stages[i].capacity, stages[i].fill)];
      }
      WholePrefix(stages);
    }

    method Delete(name: string) returns (r: Result<()>)
      requires Valid() && Admissible(env, names, cat, Call.Delete(name))
      modifies this, store
      ensures Valid()
      ensures Serve(env, old(cat), Call.Delete(name)) == (if r.Ok? then Deleted else Failed(r.error), cat)
    {
      hide Rep, Family, ValidCatalogue, ValidWorld, WorldOf, StagesOf, HandleStages, HandleOk, ConfigOf, LoadOf, AddOf, DropOf, Serve;
      LoadFinds(env, names, store.State(), cat, name);
      ServeWithoutFilter(env, cat, Call.Delete(name));
      var f := Filter.Load(env, store, name);
      match f
      case Err(e) =>
        r := Err(MapErr(e));
      case Ok(filter) =>
        DeleteServes(env, names, store.State(), cat, name);
        filter.Drop();
        cat := cat - {name};
        r := Ok(());
    }

    /** bloom.ListFilters: exactly the live names, each once. */
    method ListFilters() returns (out: seq<string>)
      requires Valid()
      ensures Elements(out) == cat.Keys && |out| == |cat|
    {
      WorldIsValid(env, cat);
      assert Holds(env, names, store.State(), WorldOf(env, cat), RegistryKey);
      out := store.SMembers(Render(RegistryKey));
    }

    /** One call of the service. */
    method Handle(call: Call) returns (reply: Reply)
      requires Valid() && Admissible(env, names, cat, call)
      modifies this, store
      ensures Valid() && (reply, cat) == Serve(env, old(cat), call)
    {
      match call
      case Create(name, n, p, now) =>
        var r := Create(name, n, p, now);
        reply := match r case Ok(info) => Created(info) case Err(e) => Failed(e);
      case Add(name, item) =>
        var r := Add(name, item);
        reply := match r case Ok(_) => Added case Err(e) => Failed(e);
      case Exists(name, item) =>
        var r := Exists(name, item);
        reply := match r case Ok(found) => Found(found) case Err(e) => Failed(e);
      case Stats(name) =>
        var r := Stats(name);
        reply := match r case Ok(stats) => Statistics(stats) case Err(e) => Failed(e);
      case Delete(name) =>
        var r := Delete(name);
        reply := match r case Ok(_) => Deleted case Err(e) => Failed(e);
    }
  }
}
