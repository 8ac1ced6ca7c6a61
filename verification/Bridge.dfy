/** The protocol runs on the string-keyed store: every step of a concurrent run is at most one call
    on one rendered key, the store goes on representing the shared chain, and what a client computes
    is what it parses from the store's answer. */
module Bridge {
  import opened Base
  import opened Runtime
  import opened Decimal
  import opened Keys
  import opened Store
  import opened Sizing
  import opened Shard
  import opened Chain
  import opened Layout
  import opened Persist
  import opened Protocol
  import opened ProtocolSafety
  import Engine
  import Valkey

  // ---------------------------------------------------------------- the calls behind the steps

  datatype Op =
    | Local
    | ReadHash(key: Key)
    | ReadCounter(key: Key)
    | ReadBit(key: Key, offset: nat)
    | WriteBit(key: Key, offset: nat)
    | Increment(key: Key)
    | TryAppend(name: string, stage: Stage)

  /** The store call a client's next step makes; Local steps make none. */
  function OpOf(cfg: Config, name: string, cl: Client): Op {
    match cl.pc
    case LoadMeta => ReadHash(MetaKey(name))
    case LoadStage(count, loaded) => if |loaded| < count then ReadHash(StageMetaKey(name, |loaded|)) else Local
    case LoadFill(_, loaded, _) => ReadCounter(FillKey(name, |loaded|))
    case Setting(c) =>
      if cl.handle == [] then Local
      else if c.batch != [] then WriteBit(ShardKey(name, |cl.handle| - 1, c.shard), c.batch[0])
      else if Finished(c) then Increment(FillKey(name, |cl.handle| - 1))
      else Local
    case Appending =>
      var plan := cfg.plan(|cl.handle|);
      if plan.Ok? then TryAppend(name, plan.value) else Local
    case Probing(i, c, _) => if c.batch != [] then ReadBit(ShardKey(name, i, c.shard), c.batch[0]) else Local
    case _ => Local
  }

  function AppendCall(st: StoreState, name: string, stage: Stage): (Result<int>, StoreState) {
    AppendStageOf(st, Render(MetaKey(name)), stage.index, StageToMap(stage), Render(StageMetaKey(name, stage.index)))
  }

  function StoreAfter(st: StoreState, op: Op): StoreState {
    match op
    case WriteBit(key, o) => SetBitsOf(st, Render(key), [o])
    case Increment(key) => IncrOf(st, Render(key))
    case TryAppend(name, stage) => AppendCall(st, name, stage).1
    case _ => st
  }

  /** The client's next state, as the code computes it from its own state and the store's answer to
      its call; None where the code would report an error. */
  function Resume(st: StoreState, op: Op, cl: Client): Option<Client> {
    match op
    case Local => None
    case WriteBit(_, _) =>
      if cl.pc.Setting? && cl.pc.cursor.batch != [] then Some(cl.(pc := Setting(Advance(cl.pc.cursor)))) else None
    case ReadHash(key) =>
      var h := HGetAllOf(st, Render(key));
      if key.MetaKey? then
        var count := Atoi(Field(h, STAGE_COUNT));
        if h != map[] && count.Some? && count.value >= 0 then Some(cl.(pc := LoadStage(count.value, []))) else None
      else if key.StageMetaKey? && cl.pc.LoadStage? then
        var stage := MapToStage(h, key.stage);
        if stage.Ok? then Some(cl.(pc := LoadFill(cl.pc.count, cl.pc.loaded, stage.value))) else None
      else None
    case ReadCounter(key) =>
      if !cl.pc.LoadFill? then None
      else
        (match GetOf(st, Render(key))
         case None => Some(cl.(pc := LoadStage(cl.pc.count, cl.pc.loaded + [cl.pc.next])))
         case Some(text) =>
           var fill := ParseUint(text);
           if fill.None? then None
           else Some(cl.(pc := LoadStage(cl.pc.count, cl.pc.loaded + [cl.pc.next.(fill := fill.value)]))))
    case ReadBit(key, o) =>
      if cl.pc.Probing? && cl.pc.cursor.batch != [] then
        var bit := GetBitsOf(st, Render(key), [o]) == [true];
        Some(cl.(pc := Probing(cl.pc.stage, Advance(cl.pc.cursor), cl.pc.hit && bit)))
      else None
    case Increment(key) =>
      var value := CounterAt(IncrOf(st, Render(key)), Render(key));
      if cl.handle == [] || value < 0 then None
      else
        var i := |cl.handle| - 1;
        var st := cl.handle[i].(fill := value);
        Some(cl.(handle := cl.handle[i := st], pc := if st.fill >= st.capacity then Appending else Added))
    case TryAppend(name, stage) =>
      var count := AppendCall(st, name, stage).0;
      if count.Err? then None
      else if count.value > stage.index + 1 then Some(cl.(pc := LoadMeta, reloading := true))
      else Some(cl.(handle := cl.handle + [stage], pc := Added))
  }

  /** The client could take the same step whatever the store held, as far as its handle goes. */
  ghost predicate Blind(cfg: Config, id: Id, cl: Client, cl': Client) {
    forall sh2: Shared :: |cl.handle| <= |sh2.chain| ==> BlindUnder(cfg, id, cl, cl', sh2)
  }

  /** A call that begins remembers the shared state it began in. */
  function Begun(cl: Client, cl': Client, sh2: Shared): Client {
    if Resting(cl.pc) then cl'.(start := sh2) else cl'
  }

  ghost predicate BlindUnder(cfg: Config, id: Id, cl: Client, cl': Client, sh2: Shared) {
    exists sh3: Shared :: CallStep(cfg, id, sh2, cl, sh3, Begun(cl, cl', sh2))
  }

  /** What each step's next state comes from: the store's answer, or nothing but the client. */
  ghost predicate Explained(cfg: Config, id: Id, st: StoreState, op: Op, cl: Client, cl': Client) {
    if op.Local? then Blind(cfg, id, cl, cl') else Resume(st, op, cl) == Some(cl')
  }

  // ---------------------------------------------------------------- what clients hold

  /** Every bit a cursor still has to visit is a legal offset of its shard, below the stage's m. */
  predicate Visits(shard: nat, offsets: seq<nat>, m: nat) {
    forall o :: o in offsets ==> o < SHARD_BITS && Flat(shard, o) < m
  }

  predicate CursorOk(c: Cursor, m: nat) {
    Visits(c.shard, c.batch, m) && forall j :: j in c.groups ==> Visits(j, c.groups[j], m)
  }

  predicate LocalInv(cl: Client) {
    match cl.pc
    case Setting(c) => cl.handle != [] && CursorOk(c, Last(cl.handle).m)
    case Probing(i, c, _) => i < |cl.handle| && CursorOk(c, cl.handle[i].m)
    case LoadFill(_, _, next) => next.fill == 0
    case _ => true
  }

  predicate Below(positions: seq<nat>, m: nat) {
    forall q :: q in positions ==> q < m
  }

  ghost predicate TargetsFit(cfg: Config) {
    forall x, m, k :: Below(cfg.targets(x, m, k), m)
  }

  lemma ConfigFits(env: Env, n: nat, p: real)
    requires env.Sound()
    ensures ConfigOf(env, n, p).Sound() && TargetsFit(ConfigOf(env, n, p))
  {
    Engine.ConfigIsSound(env, n, p);
    forall x, m: nat, k
      ensures Below(ConfigOf(env, n, p).targets(x, m, k), m)
    {
      if m >= 1 {
        Engine.ConfigTargets(env, n, p, x, m, k);
      }
    }
  }

  lemma BeginOk(positions: seq<nat>, m: nat)
    requires Below(positions, m)
    ensures CursorOk(Begin(positions), m)
  {
    var g := GroupsOf(positions);
    forall j, o | j in g && o in g[j]
      ensures o < SHARD_BITS && Flat(j, o) < m
    {
      GroupsExact(positions, j, o);
    }
  }

  lemma EnterOk(cfg: Config, cl: Client, call: Call)
    requires TargetsFit(cfg) && cl.handle != [] && cl.pc == Enter(cfg, call, cl.handle)
    ensures LocalInv(cl)
  {
    hide Begin, CursorOk, Below;
    var last := Last(cl.handle);
    if !call.StatsCall? {
      BeginOk(cfg.targets(call.item, last.m, last.k), last.m);
    }
  }

  lemma PickOk(c: Cursor, j: nat, m: nat)
    requires CursorOk(c, m) && j in c.groups
    ensures CursorOk(Pick(c, j), m)
  {
  }

  lemma AdvanceOk(c: Cursor, m: nat)
    requires CursorOk(c, m) && c.batch != []
    ensures CursorOk(Advance(c), m)
    ensures c.batch[0] < SHARD_BITS && Head(c) < m
  {
    assert c.batch[0] in c.batch;
    assert forall o :: o in c.batch[1..] ==> o in c.batch;
  }

  /** Each client keeps its own bookkeeping through its own steps. */
  lemma StepKeepsLocal(cfg: Config, id: Id, sh: Shared, cl: Client, sh': Shared, cl': Client)
    requires TargetsFit(cfg) && LocalInv(cl) && ClientStep(cfg, id, sh, cl, sh', cl')
    ensures LocalInv(cl')
  {
    hide Begin, Enter, SetBit, Bump, Append, Head, Pick, Advance, CursorOk, Below;
    if BeginRetained(cfg, sh, cl, sh', cl') || LoadDone(cfg, sh, cl, sh', cl') {
      EnterOk(cfg, cl', cl'.call);
    } else if ProbeNext(cfg, sh, cl, sh', cl') {
      if cl.pc.stage > 0 {
        var st := cl.handle[cl.pc.stage - 1];
        BeginOk(cfg.targets(cl.call.item, st.m, st.k), st.m);
      }
    } else {
      hide BeginRetained, LoadDone, ProbeNext;
      if cl.pc.Setting? || cl.pc.Probing? {
        WalkKeepsLocal(cfg, id, sh, cl, sh', cl');
      }
    }
  }

  lemma WalkKeepsLocal(cfg: Config, id: Id, sh: Shared, cl: Client, sh': Shared, cl': Client)
    requires LocalInv(cl) && ClientStep(cfg, id, sh, cl, sh', cl') && (cl.pc.Setting? || cl.pc.Probing?)
    requires !ProbeNext(cfg, sh, cl, sh', cl')
    ensures LocalInv(cl')
  {
    hide SetBit, Bump, Head, Pick, Advance, CursorOk, ProbeNext;
    var m := if cl.pc.Setting? then Last(cl.handle).m else cl.handle[cl.pc.stage].m;
    if cl.pc.cursor.batch != [] {
      AdvanceOk(cl.pc.cursor, m);
    }
    forall j | j in cl.pc.cursor.groups
      ensures CursorOk(Pick(cl.pc.cursor, j), m)
    {
      PickOk(cl.pc.cursor, j, m);
    }
  }

  // ---------------------------------------------------------------- one step

  /** The store represents a valid world that has this filter in it. */
  ghost predicate Linked(env: Env, names: Names, st: StoreState, w: World, name: string)
    requires env.Sound()
  {
    name in w && name in names.all && Family(names) && Rep(env, names, st, w) && ValidWorld(env, w)
  }

  ghost function Cfg(env: Env, w: World, name: string): Config
    requires env.Sound() && name in w
  {
    ConfigOf(env, w[name].n, w[name].p)
  }

  lemma ReadMetaExplained(env: Env, names: Names, st: StoreState, w: World, name: string)
    requires env.Sound() && Linked(env, names, st, w, name)
    ensures var h := HGetAllOf(st, Render(MetaKey(name)));
      h != map[] && Atoi(Field(h, STAGE_COUNT)) == Some(|w[name].stages|)
  {
    var f := w[name];
    assert Holds(env, names, st, w, MetaKey(name));
    assert ValidFilter(env, f);
    ChainLength(env, f);
    MetaReadBack(env, f.n, f.p, |f.stages|, f.created);
    hide Render, ValidFilter, MetaFields, Atoi;
  }

  lemma ReadStageExplained(env: Env, names: Names, st: StoreState, w: World, name: string, i: nat)
    requires env.Sound() && Linked(env, names, st, w, name) && i < |w[name].stages|
    ensures MapToStage(HGetAllOf(st, Render(StageMetaKey(name, i))), i) == Ok(SeedStage(i, w[name].stages[i]))
  {
    StoredStage(env, names, st, w, name, i);
    assert ValidFilter(env, w[name]);
    ParamsInRange(env, w[name], i);
    hide Rep, ValidWorld, ValidFilter, Render, MapToStage, StageToMap;
    StageRoundTrip(SeedStage(i, w[name].stages[i]));
  }

  lemma ReadFillExplained(env: Env, names: Names, st: StoreState, w: World, name: string, i: nat)
    requires env.Sound() && Linked(env, names, st, w, name) && i < |w[name].stages|
    ensures var fill := w[name].stages[i].fill;
      match GetOf(st, Render(FillKey(name, i)))
      case None => fill == 0
      case Some(text) => ParseUint(text) == Some(fill)
  {
    StoredStage(env, names, st, w, name, i);
    assert ValidFilter(env, w[name]);
    PrintParse(w[name].stages[i].fill);
    hide Rep, Render, Format, ParseUint, GetOf;
  }

  lemma LoadExplained(env: Env, names: Names, st: StoreState, w: World, name: string, sh: Shared, cl: Client, cl': Client)
    requires env.Sound() && Linked(env, names, st, w, name) && w[name].stages == sh.chain && LocalInv(cl)
    requires var cfg := Cfg(env, w, name);
      ReadMeta(cfg, sh, cl, sh, cl') || ReadStage(cfg, sh, cl, sh, cl') || ReadFill(cfg, sh, cl, sh, cl')
    ensures Resume(st, OpOf(Cfg(env, w, name), name, cl), cl) == Some(cl')
  {
    hide Linked, Atoi, MapToStage, ParseUint, Render, HGetAllOf, GetOf;
    match cl.pc
    case LoadMeta => ReadMetaExplained(env, names, st, w, name);
    case LoadStage(count, loaded) => ReadStageExplained(env, names, st, w, name, |loaded|);
    case LoadFill(count, loaded, next) => ReadFillExplained(env, names, st, w, name, |loaded|);
  }

  /** Reading one bit of a pipelined GetBits. */
  lemma ProbeExplained(env: Env, names: Names, st: StoreState, w: World, name: string, sh: Shared, cl: Client, cl': Client)
    requires env.Sound() && Linked(env, names, st, w, name) && w[name].stages == sh.chain && LocalInv(cl)
    requires ProbeOne(Cfg(env, w, name), sh, cl, sh, cl')
    ensures Resume(st, OpOf(Cfg(env, w, name), name, cl), cl) == Some(cl')
  {
    var c := cl.pc.cursor;
    AdvanceOk(c, cl.handle[cl.pc.stage].m);
    GetBitsStep(env, names, st, w, name, cl.pc.stage, c.shard, [c.batch[0]]);
    hide Rep, Render, ValidWorld, GetBitsOf;
    var bits := GetBitsOf(st, Render(ShardKey(name, cl.pc.stage, c.shard)), [c.batch[0]]);
    assert bits == [bits[0]];
  }

  /** One bit of a pipelined SetBits at the store. */
  lemma BitRefines(env: Env, names: Names, st: StoreState, w: World, name: string, i: nat, shard: nat, o: nat)
    requires env.Sound() && Linked(env, names, st, w, name) && i < |w[name].stages|
    requires o < SHARD_BITS
    ensures Rep(env, names, StoreAfter(st, WriteBit(ShardKey(name, i, shard), o)), WithStages(w, name, SetBit(w[name].stages, i, Flat(shard, o))))
  {
    SetBitsStep(env, names, st, w, name, i, shard, [o]);
    assert FlatSet(shard, [o]) == {Flat(shard, o)};
    hide Rep, Render, ValidWorld, SetBitsOf;
    assert AddBits(w[name].stages, i, {Flat(shard, o)}) == SetBit(w[name].stages, i, Flat(shard, o));
  }

  /** Setting one bit of a pipelined SetBits. */
  lemma WriteRefines(env: Env, names: Names, st: StoreState, w: World, name: string, sh: Shared, cl: Client, sh': Shared, cl': Client)
    requires env.Sound() && Linked(env, names, st, w, name) && w[name].stages == sh.chain && LocalInv(cl)
    requires SetOne(Cfg(env, w, name), sh, cl, sh', cl')
    ensures Rep(env, names, StoreAfter(st, OpOf(Cfg(env, w, name), name, cl)), WithStages(w, name, sh'.chain))
  {
    hide Linked, Rep, Render, CursorOk, SetBitsOf, Advance;
    AdvanceOk(cl.pc.cursor, Last(cl.handle).m);
    BitRefines(env, names, st, w, name, |cl.handle| - 1, cl.pc.cursor.shard, cl.pc.cursor.batch[0]);
  }

  lemma BumpRefines(env: Env, names: Names, st: StoreState, w: World, name: string, id: Id, sh: Shared, cl: Client, sh': Shared, cl': Client)
    requires env.Sound() && Linked(env, names, st, w, name) && w[name].stages == sh.chain
    requires BumpFill(Cfg(env, w, name), id, sh, cl, sh', cl') && sh.chain[|cl.handle| - 1].fill + 1 < TWO63
    ensures var op := OpOf(Cfg(env, w, name), name, cl);
      Rep(env, names, StoreAfter(st, op), WithStages(w, name, sh'.chain)) && Resume(st, op, cl) == Some(cl')
  {
    hide Rep, Family, Render, ValidWorld, IncrOf, Bump, ConfigOf, SetBit, Head, StageToMap;
    IncrStep(env, names, st, w, name, |cl.handle| - 1);
  }

  lemma GrowRefines(env: Env, names: Names, st: StoreState, w: World, name: string, sh: Shared, cl: Client, sh': Shared, cl': Client)
    requires env.Sound() && Linked(env, names, st, w, name) && w[name].stages == sh.chain
    requires Cfg(env, w, name).Sound()
    requires Grow(Cfg(env, w, name), sh, cl, sh', cl') && |cl.handle| <= |sh.chain|
    ensures var op := OpOf(Cfg(env, w, name), name, cl);
      && Rep(env, names, StoreAfter(st, op), WithStages(w, name, sh'.chain))
      && op.Local? == Cfg(env, w, name).plan(|cl.handle|).Err?
      && (!op.Local? ==> Resume(st, op, cl) == Some(cl'))
  {
    hide Rep, Family, Render, ValidWorld, AppendStageOf, ConfigOf, Append, StageToMap;
    var plan := Cfg(env, w, name).plan(|cl.handle|);
    if plan.Ok? {
      Engine.NextStageAllowed(env, names, st, w, name, |cl.handle|);
      Engine.ChainFitsWorld(env, w, name);
      AppendStep(env, names, st, w, name, plan.value);
    } else {
      assert WithStages(w, name, sh.chain) == w;
    }
  }

  predicate FillsFit(ch: Stages) {
    forall i :: 0 <= i < |ch| ==> ch[i].fill < TWO63
  }

  /** Any step of the code, as one store call or none. */
  lemma StepRefines(env: Env, names: Names, st: StoreState, w: World, name: string, id: Id, sh: Shared, cl: Client, sh': Shared, cl': Client)
    requires env.Sound() && Linked(env, names, st, w, name) && w[name].stages == sh.chain && LocalInv(cl)
    requires CallStep(Cfg(env, w, name), id, sh, cl, sh', cl') && FillsFit(sh'.chain) && |cl.handle| <= |sh.chain|
    ensures var op := OpOf(Cfg(env, w, name), name, cl);
      Rep(env, names, StoreAfter(st, op), WithStages(w, name, sh'.chain)) && Explained(Cfg(env, w, name), id, st, op, cl, cl')
  {
    Engine.ConfigIsSound(env, w[name].n, w[name].p);
    assert ValidFilter(env, w[name]);
    ChainLength(env, w[name]);
    assert WithStages(w, name, sh.chain) == w;
    hide Rep, ValidFilter, ValidWorld, LocalInv, WithStages, ConfigOf, StoreAfter, Blind, Resume;
    var cfg := Cfg(env, w, name);
    if SetOne(cfg, sh, cl, sh', cl') {
      WriteRefines(env, names, st, w, name, sh, cl, sh', cl');
      WriteOp(cfg, st, name, sh, cl, sh', cl');
    } else if BumpFill(cfg, id, sh, cl, sh', cl') {
      assert sh'.chain[|cl.handle| - 1].fill < TWO63;
      BumpRefines(env, names, st, w, name, id, sh, cl, sh', cl');
    } else if Grow(cfg, sh, cl, sh', cl') {
      GrowRefines(env, names, st, w, name, sh, cl, sh', cl');
      if cfg.plan(|cl.handle|).Err? {
        OverflowBlind(cfg, id, sh, cl, sh', cl');
      }
    } else {
      QuietOp(cfg, st, name, id, sh, cl, sh', cl');
      if ReadMeta(cfg, sh, cl, sh', cl') || ReadStage(cfg, sh, cl, sh', cl') || ReadFill(cfg, sh, cl, sh', cl') {
        LoadExplained(env, names, st, w, name, sh, cl, cl');
      } else if ProbeOne(cfg, sh, cl, sh', cl') {
        ProbeExplained(env, names, st, w, name, sh, cl, cl');
      } else {
        LocalOp(cfg, st, name, id, sh, cl, sh', cl');
      }
    }
  }

  lemma WriteOp(cfg: Config, st: StoreState, name: string, sh: Shared, cl: Client, sh': Shared, cl': Client)
    requires SetOne(cfg, sh, cl, sh', cl')
    ensures OpOf(cfg, name, cl).WriteBit? && Resume(st, OpOf(cfg, name, cl), cl) == Some(cl')
  {
    hide Render, Head, Advance;
  }

  predicate Writes(cfg: Config, id: Id, sh: Shared, cl: Client, sh': Shared, cl': Client) {
    SetOne(cfg, sh, cl, sh', cl') || BumpFill(cfg, id, sh, cl, sh', cl') || Grow(cfg, sh, cl, sh', cl')
  }

  lemma QuietOp(cfg: Config, st: StoreState, name: string, id: Id, sh: Shared, cl: Client, sh': Shared, cl': Client)
    requires CallStep(cfg, id, sh, cl, sh', cl') && !Writes(cfg, id, sh, cl, sh', cl')
    ensures StoreAfter(st, OpOf(cfg, name, cl)) == st && sh'.chain == sh.chain
    ensures ReadMeta(cfg, sh, cl, sh', cl') ==> sh' == sh
    ensures ReadStage(cfg, sh, cl, sh', cl') ==> sh' == sh
    ensures ReadFill(cfg, sh, cl, sh', cl') ==> sh' == sh
    ensures ProbeOne(cfg, sh, cl, sh', cl') ==> sh' == sh
  {
    hide Render, Head, Advance, Pick, SetBit, Bump, Append, Enter, ProbeStage;
  }

  lemma LocalOp(cfg: Config, st: StoreState, name: string, id: Id, sh: Shared, cl: Client, sh': Shared, cl': Client)
    requires CallStep(cfg, id, sh, cl, sh', cl') && !Writes(cfg, id, sh, cl, sh', cl') && !ProbeOne(cfg, sh, cl, sh', cl')
    requires !ReadMeta(cfg, sh, cl, sh', cl') && !ReadStage(cfg, sh, cl, sh', cl') && !ReadFill(cfg, sh, cl, sh', cl')
    ensures OpOf(cfg, name, cl).Local? && Blind(cfg, id, cl, cl')
  {
    hide Render, Head, Advance, Pick, SetBit, Bump, Append, Enter, ProbeStage;
    forall sh2: Shared | |cl.handle| <= |sh2.chain|
      ensures BlindUnder(cfg, id, cl, cl', sh2)
    {
      var sh3 := if ReloadDone(cfg, sh, cl, sh', cl') then sh2.(acked := sh2.acked + {cl.call.item}) else sh2;
      assert CallStep(cfg, id, sh2, cl, sh3, Begun(cl, cl', sh2));
    }
  }

  lemma OverflowBlind(cfg: Config, id: Id, sh: Shared, cl: Client, sh': Shared, cl': Client)
    requires Grow(cfg, sh, cl, sh', cl') && cfg.plan(|cl.handle|).Err?
    ensures Blind(cfg, id, cl, cl')
  {
    forall sh2: Shared | |cl.handle| <= |sh2.chain|
      ensures BlindUnder(cfg, id, cl, cl', sh2)
    {
      assert Grow(cfg, sh2, cl, sh2, cl');
      hide Grow;
      assert CallStep(cfg, id, sh2, cl, sh2, Begun(cl, cl', sh2));
    }
  }

  // ---------------------------------------------------------------- whole runs

  predicate BitsBelow(ch: Stages) {
    forall i, q :: 0 <= i < |ch| && q in ch[i].bits ==> q < ch[i].m
  }

  lemma StepKeepsBits(cfg: Config, id: Id, sh: Shared, cl: Client, sh': Shared, cl': Client)
    requires ClientStep(cfg, id, sh, cl, sh', cl') && LocalInv(cl) && HandleOk(cl.handle, sh.chain) && BitsBelow(sh.chain)
    ensures BitsBelow(sh'.chain)
  {
    hide Head, Advance, CursorOk, Enter, Begin, Pick;
    if SetOne(cfg, sh, cl, sh', cl') {
      var i := |cl.handle| - 1;
      assert Agree(cl.handle[i], i, sh.chain[i]);
      AdvanceOk(cl.pc.cursor, Last(cl.handle).m);
    }
  }

  lemma {:induction false} FillBelowTotal(ch: Stages, i: nat)
    requires i < |ch|
    ensures ch[i].fill <= TotalFill(ch)
  {
    if i < |ch| - 1 {
      FillBelowTotal(ch[..|ch| - 1], i);
    }
  }

  lemma ChainIsValid(env: Env, w: World, name: string, sh: Shared)
    requires env.Sound() && ValidWorld(env, w) && name in w
    requires SharedInv(Cfg(env, w, name), sh) && sh.incs < TWO63 && BitsBelow(sh.chain)
    ensures FillsFit(sh.chain) && ValidWorld(env, WithStages(w, name, sh.chain))
  {
    forall i | 0 <= i < |sh.chain|
      ensures sh.chain[i].fill < TWO63
    {
      FillBelowTotal(sh.chain, i);
    }
    assert ValidFilter(env, w[name]);
    hide ConfigOf;
    assert ValidFilter(env, w[name].(stages := sh.chain));
  }

  /** A bit adrift lies below its stage's m. */
  predicate AdriftFits(sh: Shared) {
    forall d :: d in sh.adrift && d.LateBit? ==> d.stage < |sh.chain| && d.flat < sh.chain[d.stage].m
  }

  ghost predicate LocalsAt(s: Sys) {
    BitsBelow(s.sh.chain) && AdriftFits(s.sh) && forall id :: id in s.clients ==> LocalInv(s.clients[id])
  }

  lemma StepKeepsAdrift(cfg: Config, id: Id, sh: Shared, cl: Client, sh': Shared, cl': Client)
    requires ClientStep(cfg, id, sh, cl, sh', cl') && LocalInv(cl) && HandleOk(cl.handle, sh.chain) && AdriftFits(sh)
    ensures AdriftFits(sh')
  {
    hide CallStep, Abort, AdriftFits;
    if Abort(cfg, id, sh, cl, sh', cl') {
      AbortKeepsAdrift(cfg, id, sh, cl, sh', cl');
    } else {
      CallKeepsAdrift(cfg, id, sh, cl, sh', cl');
    }
  }

  lemma CallKeepsAdrift(cfg: Config, id: Id, sh: Shared, cl: Client, sh': Shared, cl': Client)
    requires CallStep(cfg, id, sh, cl, sh', cl') && AdriftFits(sh)
    ensures AdriftFits(sh')
  {
    hide Head, Advance, Enter, Begin, Pick, ProbeStage;
    assert sh'.adrift == sh.adrift;
  }

  lemma AbortKeepsAdrift(cfg: Config, id: Id, sh: Shared, cl: Client, sh': Shared, cl': Client)
    requires Abort(cfg, id, sh, cl, sh', cl') && LocalInv(cl) && HandleOk(cl.handle, sh.chain) && AdriftFits(sh)
    ensures AdriftFits(sh')
  {
    forall d | d in sh'.adrift && d.LateBit?
      ensures d.stage < |sh.chain| && d.flat < sh.chain[d.stage].m
    {
      if d !in sh.adrift {
        assert Unanswered(cfg, cl, d);
        assert Agree(cl.handle[d.stage], d.stage, sh.chain[d.stage]);
      }
    }
  }

  lemma ArrivesKeepsLocals(cfg: Config, d: Straggler, sh: Shared, sh': Shared)
    requires Arrives(cfg, d, sh, sh') && BitsBelow(sh.chain) && AdriftFits(sh)
    ensures BitsBelow(sh'.chain) && AdriftFits(sh')
  {
  }

  lemma NextKeepsLocals(cfg: Config, s: Sys, s': Sys)
    requires TargetsFit(cfg) && LocalsAt(s) && Inv(cfg, s) && Next(cfg, s, s')
    ensures LocalsAt(s')
  {
    hide ClientStep, LocalInv, BitsBelow, AdriftFits, SharedInv, LateInv, AppendPending, Arrives;
    if d :| Drift(cfg, d, s, s') {
      ArrivesKeepsLocals(cfg, d, s.sh, s'.sh);
    } else {
      var id :| StepBy(cfg, id, s, s');
      assert ClientInv(cfg, s.sh, s.clients[id]);
      StepKeepsLocal(cfg, id, s.sh, s.clients[id], s'.sh, s'.clients[id]);
      StepKeepsBits(cfg, id, s.sh, s.clients[id], s'.sh, s'.clients[id]);
      StepKeepsAdrift(cfg, id, s.sh, s.clients[id], s'.sh, s'.clients[id]);
    }
  }

  lemma InitLocals(cfg: Config, s: Sys)
    requires Init(cfg, s)
    ensures LocalsAt(s)
  {
  }

  lemma StepOfRun(cfg: Config, run: seq<Sys>, i: nat)
    requires cfg.Sound() && IsRun(cfg, run) && 0 < i < |run|
    ensures Next(cfg, run[i - 1], run[i]) && Inv(cfg, run[i - 1]) && Inv(cfg, run[i])
    ensures run[i - 1].sh.incs <= run[i].sh.incs
  {
    hide Next, Inv;
    InvAt(cfg, run, i - 1);
    InvAt(cfg, run, i);
    assert StepAt(cfg, run, i - 1);
  }

  lemma {:induction false} LocalsHold(cfg: Config, run: seq<Sys>, i: nat)
    requires cfg.Sound() && TargetsFit(cfg) && IsRun(cfg, run) && i < |run|
    ensures LocalsAt(run[i])
  {
    hide Next, LocalsAt, Inv, TargetsFit;
    if i == 0 {
      InitLocals(cfg, run[0]);
    } else {
      hide IsRun;
      LocalsHold(cfg, run, i - 1);
      StepOfRun(cfg, run, i);
      NextKeepsLocals(cfg, run[i - 1], run[i]);
    }
  }

  // ---------------------------------------------------------------- writes that arrive late

  /** The store call that a write adrift is part of. */
  function LateOp(cfg: Config, name: string, d: Straggler): Op {
    match d
    case LateBit(i, q) => WriteBit(ShardKey(name, i, ShardOf(q)), OffsetOf(q))
    case LateIncr(i) => Increment(FillKey(name, i))
    case LateAppend(i) => if cfg.plan(i).Ok? then TryAppend(name, cfg.plan(i).value) else Local
  }

  /** A write that arrives late is the very call its client would have made. */
  lemma LateOpIsClients(cfg: Config, name: string, cl: Client, d: Straggler)
    requires Unanswered(cfg, cl, d) && LocalInv(cl)
    ensures d.LateBit? ==>
      exists o :: o in cl.pc.cursor.batch && LateOp(cfg, name, d) == WriteBit(ShardKey(name, |cl.handle| - 1, cl.pc.cursor.shard), o)
    ensures !d.LateBit? ==> LateOp(cfg, name, d) == OpOf(cfg, name, cl)
  {
    hide GroupsOf;
    if d.LateBit? {
      var o :| o in cl.pc.cursor.batch && d.flat == Flat(cl.pc.cursor.shard, o);
      SplitJoin(d.flat, cl.pc.cursor.shard, o);
    }
  }

  lemma ArrivesRefines(env: Env, names: Names, st: StoreState, w: World, name: string, d: Straggler, sh: Shared, sh': Shared)
    requires env.Sound() && Linked(env, names, st, w, name) && w[name].stages == sh.chain
    requires Arrives(Cfg(env, w, name), d, sh, sh') && AimedWell(Cfg(env, w, name), sh.chain, d) && FillsFit(sh'.chain)
    ensures Rep(env, names, StoreAfter(st, LateOp(Cfg(env, w, name), name, d)), WithStages(w, name, sh'.chain))
  {
    hide Rep, Family, Render, ValidWorld, SetBitsOf, IncrOf, AppendStageOf, ConfigOf, Append, StageToMap;
    match d
    case LateBit(i, q) =>
      SplitJoin(q, ShardOf(q), OffsetOf(q));
      BitRefines(env, names, st, w, name, i, ShardOf(q), OffsetOf(q));
    case LateIncr(i) =>
      assert sh'.chain[i].fill < TWO63;
      IncrStep(env, names, st, w, name, i);
    case LateAppend(i) =>
      Engine.ConfigIsSound(env, w[name].n, w[name].p);
      Engine.NextStageAllowed(env, names, st, w, name, i);
      Engine.ChainFitsWorld(env, w, name);
      AppendStep(env, names, st, w, name, Cfg(env, w, name).plan(i).value);
  }

  // ---------------------------------------------------------------- runs of the store

  /** Client id takes the step from s to s', and the store goes from st to st' by its one call. */
  ghost predicate StoreStep(cfg: Config, name: string, id: Id, s: Sys, s': Sys, st: StoreState, st': StoreState) {
    && StepBy(cfg, id, s, s')
    && var op := OpOf(cfg, name, s.clients[id]);
       if CallStep(cfg, id, s.sh, s.clients[id], s'.sh, s'.clients[id])
       then st' == StoreAfter(st, op) && Explained(cfg, id, st, op, s.clients[id], s'.clients[id])
       else st' == st
  }

  /** A write adrift arrives: the store carries out its call, and no client learns of it. */
  ghost predicate StoreDrift(cfg: Config, name: string, d: Straggler, s: Sys, s': Sys, st: StoreState, st': StoreState) {
    Drift(cfg, d, s, s') && st' == StoreAfter(st, LateOp(cfg, name, d))
  }

  ghost predicate StoreNext(cfg: Config, name: string, s: Sys, s': Sys, st: StoreState, st': StoreState) {
    || (exists id :: StoreStep(cfg, name, id, s, s', st, st'))
    || (exists d :: StoreDrift(cfg, name, d, s, s', st, st'))
  }

  ghost predicate StoreStepAt(cfg: Config, name: string, run: seq<Sys>, stores: seq<StoreState>, i: int)
    requires |stores| <= |run| && 0 <= i < |stores| - 1
  {
    StoreNext(cfg, name, run[i], run[i + 1], stores[i], stores[i + 1])
  }

  ghost predicate LinkedAt(env: Env, names: Names, w: World, name: string, s: Sys, st: StoreState)
    requires env.Sound() && name in w
  {
    Linked(env, names, st, WithStages(w, name, s.sh.chain), name)
  }

  lemma HandleWithin(cfg: Config, s: Sys, id: Id)
    requires Inv(cfg, s) && id in s.clients
    ensures |s.clients[id].handle| <= |s.sh.chain|
  {
    hide SharedInv, LateInv, AppendPending, PcInv;
    assert ClientInv(cfg, s.sh, s.clients[id]);
  }

  lemma NextOnStore(env: Env, names: Names, w: World, name: string, s: Sys, s': Sys, st: StoreState)
    returns (st': StoreState)
    requires env.Sound() && name in w && LinkedAt(env, names, w, name, s, st) && LocalsAt(s) && LocalsAt(s')
    requires Inv(Cfg(env, w, name), s) && Inv(Cfg(env, w, name), s') && s'.sh.incs < TWO63 && Next(Cfg(env, w, name), s, s')
    ensures StoreNext(Cfg(env, w, name), name, s, s', st, st') && LinkedAt(env, names, w, name, s', st')
  {
    hide Cfg, LinkedAt, LocalsAt, Inv, StoreStep, StoreDrift, StepBy, Drift;
    var cfg := Cfg(env, w, name);
    if d :| Drift(cfg, d, s, s') {
      st' := DriftOnStore(env, names, w, name, d, s, s', st);
    } else {
      var id :| StepBy(cfg, id, s, s');
      st' := StepOnStore(env, names, w, name, id, s, s', st);
    }
  }

  lemma StepOnStore(env: Env, names: Names, w: World, name: string, id: Id, s: Sys, s': Sys, st: StoreState)
    returns (st': StoreState)
    requires env.Sound() && name in w && LinkedAt(env, names, w, name, s, st) && LocalsAt(s) && LocalsAt(s')
    requires Inv(Cfg(env, w, name), s) && Inv(Cfg(env, w, name), s') && s'.sh.incs < TWO63
    requires StepBy(Cfg(env, w, name), id, s, s')
    ensures StoreStep(Cfg(env, w, name), name, id, s, s', st, st') && LinkedAt(env, names, w, name, s', st')
  {
    hide ConfigOf, CallStep, LocalInv, BitsBelow, SharedInv, Rep, Family, ValidWorld, ClientInv, LateInv, AppendPending;
    var cfg, w1, w2 := Cfg(env, w, name), WithStages(w, name, s.sh.chain), WithStages(w, name, s'.sh.chain);
    assert Cfg(env, w1, name) == cfg && WithStages(w1, name, s'.sh.chain) == w2;
    ChainIsValid(env, w1, name, s'.sh);
    var cl, cl' := s.clients[id], s'.clients[id];
    HandleWithin(cfg, s, id);
    if CallStep(cfg, id, s.sh, cl, s'.sh, cl') {
      StepRefines(env, names, st, w1, name, id, s.sh, cl, s'.sh, cl');
      st' := StoreAfter(st, OpOf(cfg, name, cl));
    } else {
      st' := st;
    }
  }

  lemma DriftOnStore(env: Env, names: Names, w: World, name: string, d: Straggler, s: Sys, s': Sys, st: StoreState)
    returns (st': StoreState)
    requires env.Sound() && name in w && LinkedAt(env, names, w, name, s, st) && LocalsAt(s) && LocalsAt(s')
    requires Inv(Cfg(env, w, name), s) && Inv(Cfg(env, w, name), s') && s'.sh.incs < TWO63
    requires Drift(Cfg(env, w, name), d, s, s')
    ensures StoreDrift(Cfg(env, w, name), name, d, s, s', st, st') && LinkedAt(env, names, w, name, s', st')
  {
    hide ConfigOf, LocalInv, BitsBelow, AdriftFits, HistoryInv, Rep, Family, ValidWorld, ClientInv, LateInv, AppendPending;
    hide StoreAfter, LateOp;
    var cfg, w1, w2 := Cfg(env, w, name), WithStages(w, name, s.sh.chain), WithStages(w, name, s'.sh.chain);
    assert Cfg(env, w1, name) == cfg && WithStages(w1, name, s'.sh.chain) == w2;
    ChainIsValid(env, w1, name, s'.sh);
    assert AimedWell(cfg, s.sh.chain, d);
    ArrivesRefines(env, names, st, w1, name, d, s.sh, s'.sh);
    st' := StoreAfter(st, LateOp(cfg, name, d));
  }

  lemma OneMoreStep(cfg: Config, name: string, run: seq<Sys>, before: seq<StoreState>, next: StoreState)
    requires 0 < |before| < |run| && forall i :: 0 <= i < |before| - 1 ==> StoreStepAt(cfg, name, run, before, i)
    requires var k := |before|; StoreNext(cfg, name, run[k - 1], run[k], before[k - 1], next)
    ensures forall i :: 0 <= i < |before| ==> StoreStepAt(cfg, name, run, before + [next], i)
  {
    hide StoreNext;
    forall i | 0 <= i < |before|
      ensures StoreStepAt(cfg, name, run, before + [next], i)
    {
      if i < |before| - 1 {
        assert StoreStepAt(cfg, name, run, before, i);
      }
    }
  }

  /** The stores go with the first states of the run, step for step. */
  ghost predicate StoreRun(env: Env, names: Names, w: World, name: string, run: seq<Sys>, stores: seq<StoreState>)
    requires env.Sound() && name in w
  {
    && 0 < |stores| <= |run|
    && (forall i :: 0 <= i < |stores| - 1 ==> StoreStepAt(Cfg(env, w, name), name, run, stores, i))
    && (forall i :: 0 <= i < |stores| ==> LinkedAt(env, names, w, name, run[i], stores[i]))
  }

  lemma StoreRunLast(env: Env, names: Names, w: World, name: string, run: seq<Sys>, stores: seq<StoreState>)
    requires env.Sound() && name in w && StoreRun(env, names, w, name, run, stores)
    ensures 0 < |stores| <= |run| && LinkedAt(env, names, w, name, run[|stores| - 1], stores[|stores| - 1])
  {
    hide LinkedAt, StoreStepAt, Cfg;
  }

  lemma CfgFits(env: Env, w: World, name: string)
    requires env.Sound() && name in w
    ensures Cfg(env, w, name).Sound() && TargetsFit(Cfg(env, w, name))
  {
    ConfigFits(env, w[name].n, w[name].p);
  }

  lemma StoreRunGoesOn(env: Env, names: Names, w: World, name: string, run: seq<Sys>, before: seq<StoreState>)
    returns (stores: seq<StoreState>)
    requires env.Sound() && name in w && IsRun(Cfg(env, w, name), run) && StoreRun(env, names, w, name, run, before)
    requires |before| < |run| && run[|before|].sh.incs < TWO63
    ensures StoreRun(env, names, w, name, run, stores) && |stores| == |before| + 1 && stores[0] == before[0]
  {
    hide *;
    StoreRunLast(env, names, w, name, run, before);
    CfgFits(env, w, name);
    var cfg, k := Cfg(env, w, name), |before|;
    StepOfRun(cfg, run, k);
    LocalsHold(cfg, run, k - 1);
    LocalsHold(cfg, run, k);
    var next := NextOnStore(env, names, w, name, run[k - 1], run[k], before[k - 1]);
    stores := before + [next];
    StoreRunSnoc(env, names, w, name, run, before, next);
  }

  lemma StoreRunSnoc(env: Env, names: Names, w: World, name: string, run: seq<Sys>, before: seq<StoreState>, next: StoreState)
    requires env.Sound() && name in w && StoreRun(env, names, w, name, run, before) && |before| < |run|
    requires var k := |before|;
      && StoreNext(Cfg(env, w, name), name, run[k - 1], run[k], before[k - 1], next)
      && LinkedAt(env, names, w, name, run[k], next)
    ensures StoreRun(env, names, w, name, run, before + [next])
  {
    hide Cfg, LinkedAt, StoreNext, StoreStepAt;
    OneMoreStep(Cfg(env, w, name), name, run, before, next);
    var stores := before + [next];
    forall i | 0 <= i < |stores|
      ensures LinkedAt(env, names, w, name, run[i], stores[i])
    {
      if i < |before| {
        assert LinkedAt(env, names, w, name, run[i], before[i]);
      }
    }
  }

  /** Every concurrent run is a run of the store: from any store that holds the filter as the run
      starts, there are stores, each reached by the calls of the step, that represent the shared
      chain at every moment and every other filter untouched. */
  lemma {:induction false} RunOnStore(env: Env, names: Names, w: World, name: string, run: seq<Sys>, st: StoreState, k: nat)
    returns (stores: seq<StoreState>)
    requires env.Sound() && name in w && IsRun(Cfg(env, w, name), run) && k < |run| && run[k].sh.incs < TWO63
    requires LinkedAt(env, names, w, name, run[0], st)
    ensures StoreRun(env, names, w, name, run, stores) && |stores| == k + 1 && stores[0] == st
  {
    hide IsRun, LinkedAt, StoreStepAt, ConfigOf;
    stores := [st];
    if k > 0 {
      CfgFits(env, w, name);
      RunGrows(Cfg(env, w, name), run, k - 1, k);
      hide Cfg, StoreRun;
      stores := RunOnStore(env, names, w, name, run, st, k - 1);
      stores := StoreRunGoesOn(env, names, w, name, run, stores);
    }
  }

  /** So whenever a concurrent run pauses, one more Load of the store sees exactly the shared chain,
      and Loads of all other names see what they saw before the run. */
  lemma LoadAfterRun(env: Env, names: Names, w: World, name: string, s: Sys, st: StoreState, other: string)
    requires env.Sound() && name in w && LinkedAt(env, names, w, name, s, st) && other in names.all
    ensures LoadOf(env, st, name) == Ok(Handle(w[name].n, w[name].p, DEFAULT_R, DEFAULT_S, HandleStages(s.sh.chain)))
    ensures other != name && other in w ==>
      LoadOf(env, st, other) == Ok(Handle(w[other].n, w[other].p, DEFAULT_R, DEFAULT_S, HandleStages(w[other].stages)))
    ensures other != name && other !in w ==> LoadOf(env, st, other).Err?
  {
    var w' := WithStages(w, name, s.sh.chain);
    assert name in w' && name != "";
    assert other in w ==> other in w' && other != "";
    hide Rep, ValidWorld, LoadOf, HandleStages;
    LoadUnderRep(env, names, st, w', name);
    LoadUnderRep(env, names, st, w', other);
  }

  /** In every store the engine can reach, the Lua script does what MemStore.AppendStage does: the
      count it compares is canonical, and the key the winner writes is free. */
  lemma EngineAppendsAgree(env: Env, names: Names, st: StoreState, w: World, name: string, stage: Stage, args: seq<(string, string)>)
    requires env.Sound() && Linked(env, names, st, w, name) && names.MayHave(name, stage.index) && stage.index + 1 < TWO63
    requires Valkey.Lists(args, StageToMap(stage)) && args != []
    ensures var (r, st') := AppendCall(st, name, stage);
      (r, st'.hashes) == Valkey.ScriptOf(st.hashes, Render(MetaKey(name)), stage.index, args, Render(StageMetaKey(name, stage.index)))
  {
    hide Format, Atoi, Scan, Render, StageToMap, AppendStageOf, Valkey.ScriptOf, Valkey.Lists, ValidFilter, BitsIn;
    var mk, sk, count := MetaKey(name), StageMetaKey(name, stage.index), |w[name].stages|;
    assert Holds(env, names, st, w, mk) && Holds(env, names, st, w, sk);
    NoClash(names, mk, sk);
    assert ValidFilter(env, w[name]);
    ChainLength(env, w[name]);
    PrintParse(count);
    if stage.index != count && Format(count) == Format(stage.index) {
      FormatInjective(count, stage.index);
    }
    assert Lookup(st.hashes, Render(mk)).Some?;
    Valkey.AppendsAgreeExactly(st, Render(mk), stage.index, StageToMap(stage), args, Render(sk));
  }
}
