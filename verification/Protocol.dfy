/** The stage-growth protocol: any number of clients run Load, Add, Exists and Stats against one
    filter, one atomic store operation per step. Clients hold private copies of the stage list that
    may be out of date, set and read bits one at a time in an arbitrary order of shard groups, and
    race on AppendStage. A client may start a call with a fresh Load, as the service does, or reuse
    the handle of its previous call, as a library user may. It may also give up at any point, and a
    write it gave up on may still reach the store, at once or at any later time. */
module Protocol {
  import opened Base
  import opened Sizing
  import opened Shard
  import opened Chain

  type Id = nat

  datatype Call = AddCall(item: Item) | ExistsCall(item: Item) | StatsCall

  /** Progress through a map of shard groups: the groups not begun, and what is left of the
      pipelined batch in flight. */
  datatype Cursor = Cursor(groups: map<nat, seq<nat>>, shard: nat, batch: seq<nat>)

  datatype Pc =
    | Idle
    | LoadMeta
    | LoadStage(count: nat, loaded: seq<Stage>)
    | LoadFill(count: nat, loaded: seq<Stage>, next: Stage)
    | Setting(cursor: Cursor)
    | Appending
    | Probing(stage: nat, cursor: Cursor, hit: bool)
    | Added
    | Answered(found: bool)
    | Reported(items: nat)
    | Failed

  /** A write whose caller has given up on it and which the store may yet carry out. */
  datatype Straggler = LateBit(stage: nat, flat: nat) | LateIncr(stage: nat) | LateAppend(stage: nat)

  /** The filter's part of the store, the writes still adrift, and history that no client reads: the
      items whose Add returned success, the number of fill increments, per stage the clients whose
      increment reached its capacity, and per stage how many increments reached its capacity on
      behalf of a call that was cut off before it had moved on. */
  datatype Shared = Shared(
    chain: Stages, acked: set<Item>, incs: nat, late: seq<set<Id>>, cut: seq<nat>, adrift: multiset<Straggler>)

  /** start is the shared state when the current call began; viaLoad says it began with a Load. */
  datatype Client = Client(handle: seq<Stage>, pc: Pc, call: Call, start: Shared, viaLoad: bool, reloading: bool)

  datatype Sys = Sys(sh: Shared, clients: map<Id, Client>)

  // ---------------------------------------------------------------- cursors

  ghost function Pending(c: Cursor): set<nat> {
    (set o | o in c.batch :: Flat(c.shard, o)) + (set j, o | j in c.groups && o in c.groups[j] :: Flat(j, o))
  }

  function Begin(positions: seq<nat>): Cursor {
    Cursor(GroupsOf(positions), 0, [])
  }

  predicate Finished(c: Cursor) {
    c.batch == [] && c.groups == map[]
  }

  function Pick(c: Cursor, j: nat): Cursor
    requires j in c.groups
  {
    Cursor(c.groups - {j}, j, c.groups[j])
  }

  function Advance(c: Cursor): Cursor
    requires c.batch != []
  {
    c.(batch := c.batch[1..])
  }

  function Head(c: Cursor): nat
    requires c.batch != []
  {
    Flat(c.shard, c.batch[0])
  }

  lemma BeginPending(positions: seq<nat>)
    ensures Pending(Begin(positions)) == Elements(positions)
  {
    FlatOfGroups(positions);
    var g := GroupsOf(positions);
    assert Pending(Begin(positions)) == FlatGroups(g, g.Keys);
  }

  lemma PickPending(c: Cursor, j: nat)
    requires c.batch == [] && j in c.groups
    ensures Pending(Pick(c, j)) == Pending(c)
  {
    var d := Pick(c, j);
    forall q | q in Pending(c)
      ensures q in Pending(d)
    {
      var i, o :| i in c.groups && o in c.groups[i] && q == Flat(i, o);
      if i != j {
        assert i in d.groups;
      }
    }
  }

  lemma AdvancePending(c: Cursor)
    requires c.batch != []
    ensures Pending(c) == {Head(c)} + Pending(Advance(c))
  {
    var d := Advance(c);
    assert c.batch == [c.batch[0]] + d.batch;
    forall q | q in Pending(c)
      ensures q in {Head(c)} + Pending(d)
    {
      if o :| o in c.batch && q == Flat(c.shard, o) {
        assert o == c.batch[0] || o in d.batch;
      }
    }
    forall o | o in d.batch
      ensures o in c.batch
    {
    }
  }

  // ---------------------------------------------------------------- steps of one client

  predicate Resting(pc: Pc) {
    pc.Idle? || pc.Added? || pc.Answered? || pc.Reported? || pc.Failed?
  }

  function Last<T>(s: seq<T>): T
    requires s != []
  {
    s[|s| - 1]
  }

  function ProbeStage(cfg: Config, x: Item, handle: seq<Stage>, i: nat): Pc
    requires i < |handle|
  {
    Probing(i, Begin(cfg.targets(x, handle[i].m, handle[i].k)), true)
  }

  /** The first step after the handle is in place. */
  function Enter(cfg: Config, call: Call, handle: seq<Stage>): Pc
    requires handle != []
  {
    match call
    case AddCall(x) => Setting(Begin(cfg.targets(x, Last(handle).m, Last(handle).k)))
    case ExistsCall(x) => ProbeStage(cfg, x, handle, |handle| - 1)
    case StatsCall => Reported(FillSum(handle))
  }

  predicate BeginFresh(cfg: Config, sh: Shared, cl: Client, sh': Shared, cl': Client) {
    && Resting(cl.pc)
    && sh' == sh
    && cl' == Client([], LoadMeta, cl'.call, sh, true, false)
  }

  predicate BeginRetained(cfg: Config, sh: Shared, cl: Client, sh': Shared, cl': Client) {
    && Resting(cl.pc) && cl.handle != [] && !cl'.call.StatsCall?
    && sh' == sh
    && cl' == Client(cl.handle, Enter(cfg, cl'.call, cl.handle), cl'.call, sh, false, false)
  }

  predicate ReadMeta(cfg: Config, sh: Shared, cl: Client, sh': Shared, cl': Client) {
    && cl.pc.LoadMeta?
    && sh' == sh
    && cl' == cl.(pc := LoadStage(|sh.chain|, []))
  }

  predicate ReadStage(cfg: Config, sh: Shared, cl: Client, sh': Shared, cl': Client) {
    && cl.pc.LoadStage? && |cl.pc.loaded| < cl.pc.count && |cl.pc.loaded| < |sh.chain|
    && sh' == sh
    && var i := |cl.pc.loaded|;
       var s := sh.chain[i];
       cl' == cl.(pc := LoadFill(cl.pc.count, cl.pc.loaded, Stage(i, s.m, s.k, s.capacity, 0)))
  }

  predicate ReadFill(cfg: Config, sh: Shared, cl: Client, sh': Shared, cl': Client) {
    && cl.pc.LoadFill? && |cl.pc.loaded| < |sh.chain|
    && sh' == sh
    && var st := cl.pc.next.(fill := sh.chain[|cl.pc.loaded|].fill);
       cl' == cl.(pc := LoadStage(cl.pc.count, cl.pc.loaded + [st]))
  }

  predicate LoadDone(cfg: Config, sh: Shared, cl: Client, sh': Shared, cl': Client) {
    && cl.pc.LoadStage? && |cl.pc.loaded| == cl.pc.count && cl.pc.loaded != [] && !cl.reloading
    && sh' == sh
    && cl' == cl.(handle := cl.pc.loaded, pc := Enter(cfg, cl.call, cl.pc.loaded))
  }

  /** The reload after a lost race ends, and with it the Add. */
  predicate ReloadDone(cfg: Config, sh: Shared, cl: Client, sh': Shared, cl': Client) {
    && cl.pc.LoadStage? && |cl.pc.loaded| == cl.pc.count && cl.reloading && cl.call.AddCall?
    && sh' == sh.(acked := sh.acked + {cl.call.item})
    && cl' == cl.(handle := cl.pc.loaded, pc := Added)
  }

  predicate PickShard(cfg: Config, sh: Shared, cl: Client, sh': Shared, cl': Client) {
    && cl.pc.Setting? && cl.pc.cursor.batch == []
    && sh' == sh
    && exists j :: j in cl.pc.cursor.groups && cl' == cl.(pc := Setting(Pick(cl.pc.cursor, j)))
  }

  predicate SetOne(cfg: Config, sh: Shared, cl: Client, sh': Shared, cl': Client) {
    && cl.pc.Setting? && cl.pc.cursor.batch != [] && 0 < |cl.handle| <= |sh.chain|
    && sh' == sh.(chain := SetBit(sh.chain, |cl.handle| - 1, Head(cl.pc.cursor)))
    && cl' == cl.(pc := Setting(Advance(cl.pc.cursor)))
  }

  predicate BumpFill(cfg: Config, id: Id, sh: Shared, cl: Client, sh': Shared, cl': Client) {
    && cl.pc.Setting? && Finished(cl.pc.cursor) && cl.call.AddCall?
    && 0 < |cl.handle| <= |sh.chain| && |sh.late| == |sh.chain|
    && var i := |cl.handle| - 1;
       var newFill := sh.chain[i].fill + 1;
       var full := newFill >= cl.handle[i].capacity;
       && sh' == Shared(
            Bump(sh.chain, i),
            if full then sh.acked else sh.acked + {cl.call.item},
            sh.incs + 1,
            if full then sh.late[i := sh.late[i] + {id}] else sh.late,
            sh.cut, sh.adrift)
       && cl' == cl.(
            handle := cl.handle[i := cl.handle[i].(fill := newFill)],
            pc := if full then Appending else Added)
  }

  /** The history that goes with a chain after an AppendStage. */
  function Extended(sh: Shared, chain': Stages): Shared {
    if |chain'| > |sh.chain| then sh.(chain := chain', late := sh.late + [{}], cut := sh.cut + [0])
    else sh.(chain := chain')
  }

  /** appendNewStage: a size overflow fails the call; a winner, and a loser who is told exactly
      idx + 1, extend their own list; any other loser reloads. */
  predicate Grow(cfg: Config, sh: Shared, cl: Client, sh': Shared, cl': Client) {
    && cl.pc.Appending? && cl.call.AddCall?
    && var idx := |cl.handle|;
       if cfg.plan(idx).Err? then
         sh' == sh && cl' == cl.(pc := Failed)
       else
         var st := cfg.plan(idx).value;
         var (count, chain') := Append(sh.chain, idx, st);
         if count > idx + 1 then
           sh' == Extended(sh, chain') && cl' == cl.(pc := LoadMeta, reloading := true)
         else
           && sh' == Extended(sh, chain').(acked := sh.acked + {cl.call.item})
           && cl' == cl.(handle := cl.handle + [st], pc := Added)
  }

  predicate ProbePick(cfg: Config, sh: Shared, cl: Client, sh': Shared, cl': Client) {
    && cl.pc.Probing? && cl.pc.cursor.batch == [] && cl.pc.hit
    && sh' == sh
    && exists j :: j in cl.pc.cursor.groups && cl' == cl.(pc := cl.pc.(cursor := Pick(cl.pc.cursor, j)))
  }

  predicate ProbeOne(cfg: Config, sh: Shared, cl: Client, sh': Shared, cl': Client) {
    && cl.pc.Probing? && cl.pc.cursor.batch != [] && cl.pc.stage < |sh.chain|
    && sh' == sh
    && var bit := Head(cl.pc.cursor) in sh.chain[cl.pc.stage].bits;
       cl' == cl.(pc := Probing(cl.pc.stage, Advance(cl.pc.cursor), cl.pc.hit && bit))
  }

  /** A clear bit was seen: go to the next older stage, or answer false after the oldest. */
  predicate ProbeNext(cfg: Config, sh: Shared, cl: Client, sh': Shared, cl': Client) {
    && cl.pc.Probing? && cl.pc.cursor.batch == [] && !cl.pc.hit
    && cl.call.ExistsCall? && cl.pc.stage < |cl.handle|
    && sh' == sh
    && cl' == cl.(pc := if cl.pc.stage == 0 then Answered(false)
                        else ProbeStage(cfg, cl.call.item, cl.handle, cl.pc.stage - 1))
  }

  predicate ProbeFound(cfg: Config, sh: Shared, cl: Client, sh': Shared, cl': Client) {
    && cl.pc.Probing? && Finished(cl.pc.cursor) && cl.pc.hit
    && sh' == sh
    && cl' == cl.(pc := Answered(true))
  }

  /** The client has counted an item that filled its newest stage, and not yet moved on from it. */
  predicate FillingUp(cl: Client) {
    cl.pc.Appending? || (cl.reloading && (cl.pc.LoadMeta? || cl.pc.LoadStage? || cl.pc.LoadFill?))
  }

  /** The write d belongs to the store call that the client waits for. */
  predicate Unanswered(cfg: Config, cl: Client, d: Straggler) {
    match d
    case LateBit(i, q) =>
      && cl.pc.Setting? && |cl.handle| == i + 1
      && exists o :: o in cl.pc.cursor.batch && q == Flat(cl.pc.cursor.shard, o)
    case LateIncr(i) => cl.pc.Setting? && |cl.handle| == i + 1 && Finished(cl.pc.cursor)
    case LateAppend(i) => cl.pc.Appending? && |cl.handle| == i && cfg.plan(i).Ok?
  }

  /** A client that gives up leaves any part of its unanswered call adrift, or none of it. */
  predicate Leaves(cfg: Config, cl: Client, before: multiset<Straggler>, after: multiset<Straggler>) {
    before <= after && forall d :: d in after ==> after[d] <= before[d] + if Unanswered(cfg, cl, d) then 1 else 0
  }

  /** A store error, timeout or cancellation ends the call at any point. Only between the Incr that
      fills a stage and the end of growth does it leave something undone. */
  predicate Abort(cfg: Config, id: Id, sh: Shared, cl: Client, sh': Shared, cl': Client) {
    && !Resting(cl.pc)
    && Leaves(cfg, cl, sh.adrift, sh'.adrift)
    && (if FillingUp(cl) then
          && 0 < |cl.handle| <= |sh.late| && |sh.cut| == |sh.late|
          && var i := |cl.handle| - 1;
             sh' == sh.(late := sh.late[i := sh.late[i] - {id}], cut := sh.cut[i := sh.cut[i] + 1], adrift := sh'.adrift)
        else sh' == sh.(adrift := sh'.adrift))
    && cl' == cl.(pc := Failed)
  }

  /** A step of the code itself. */
  predicate CallStep(cfg: Config, id: Id, sh: Shared, cl: Client, sh': Shared, cl': Client) {
    || BeginFresh(cfg, sh, cl, sh', cl')
    || BeginRetained(cfg, sh, cl, sh', cl')
    || ReadMeta(cfg, sh, cl, sh', cl')
    || ReadStage(cfg, sh, cl, sh', cl')
    || ReadFill(cfg, sh, cl, sh', cl')
    || LoadDone(cfg, sh, cl, sh', cl')
    || ReloadDone(cfg, sh, cl, sh', cl')
    || PickShard(cfg, sh, cl, sh', cl')
    || SetOne(cfg, sh, cl, sh', cl')
    || BumpFill(cfg, id, sh, cl, sh', cl')
    || Grow(cfg, sh, cl, sh', cl')
    || ProbePick(cfg, sh, cl, sh', cl')
    || ProbeOne(cfg, sh, cl, sh', cl')
    || ProbeNext(cfg, sh, cl, sh', cl')
    || ProbeFound(cfg, sh, cl, sh', cl')
  }

  predicate ClientStep(cfg: Config, id: Id, sh: Shared, cl: Client, sh': Shared, cl': Client) {
    CallStep(cfg, id, sh, cl, sh', cl') || Abort(cfg, id, sh, cl, sh', cl')
  }

  predicate StepBy(cfg: Config, id: Id, s: Sys, s': Sys) {
    && id in s.clients && id in s'.clients
    && ClientStep(cfg, id, s.sh, s.clients[id], s'.sh, s'.clients[id])
    && s'.clients == s.clients[id := s'.clients[id]]
  }

  /** What the store does when the write d arrives after all. Nobody hears of it: an increment that
      reaches the capacity of its stage is followed by no growth. */
  predicate Arrives(cfg: Config, d: Straggler, sh: Shared, sh': Shared) {
    && d in sh.adrift
    && var rest := sh.adrift - multiset{d};
       match d
       case LateBit(i, q) => i < |sh.chain| && sh' == sh.(chain := SetBit(sh.chain, i, q), adrift := rest)
       case LateIncr(i) =>
         && i < |sh.chain| && |sh.cut| == |sh.chain|
         && var full := sh.chain[i].fill + 1 >= sh.chain[i].capacity;
            sh' == sh.(chain := Bump(sh.chain, i), incs := sh.incs + 1, adrift := rest,
              cut := if full then sh.cut[i := sh.cut[i] + 1] else sh.cut)
       case LateAppend(i) =>
         && cfg.plan(i).Ok?
         && sh' == Extended(sh, Append(sh.chain, i, cfg.plan(i).value).1).(adrift := rest)
  }

  /** A write of a call that was given up on arrives; no client moves. */
  predicate Drift(cfg: Config, d: Straggler, s: Sys, s': Sys) {
    s'.clients == s.clients && Arrives(cfg, d, s.sh, s'.sh)
  }

  ghost predicate Next(cfg: Config, s: Sys, s': Sys) {
    (exists id :: StepBy(cfg, id, s, s')) || (exists d :: Drift(cfg, d, s, s'))
  }

  ghost predicate StepAt(cfg: Config, run: seq<Sys>, i: int)
    requires 0 <= i < |run| - 1
  {
    Next(cfg, run[i], run[i + 1])
  }

  /** After New has returned: one empty stage; a client holds nothing, or the handle New returned. */
  predicate Init(cfg: Config, s: Sys) {
    && cfg.plan(0).Ok?
    && s.sh == Shared([Fresh(cfg.plan(0).value)], {}, 0, [{}], [0], multiset{})
    && forall id :: id in s.clients ==>
         && s.clients[id].pc == Idle && s.clients[id].start == s.sh && !s.clients[id].reloading
         && (s.clients[id].handle == [] || s.clients[id].handle == [cfg.plan(0).value])
  }

  ghost predicate IsRun(cfg: Config, run: seq<Sys>) {
    && run != [] && Init(cfg, run[0])
    && forall i :: 0 <= i < |run| - 1 ==> StepAt(cfg, run, i)
  }

  lemma InitIsRun(cfg: Config, s: Sys)
    requires Init(cfg, s)
    ensures IsRun(cfg, [s])
  {
    hide Init;
  }

  lemma RunSnoc(cfg: Config, run: seq<Sys>, s: Sys)
    requires IsRun(cfg, run) && Next(cfg, Last(run), s)
    ensures IsRun(cfg, run + [s])
  {
    hide Init, Next;
    forall i | 0 <= i < |run|
      ensures StepAt(cfg, run + [s], i)
    {
      if i < |run| - 1 {
        assert StepAt(cfg, run, i);
      }
    }
  }
}
