/** Inductive invariants of the stage-growth protocol, and what they give over every run.

    The proof is rely/guarantee: each client keeps its own invariant through its own steps, every
    step changes the shared state only in ways the others tolerate (Tolerable), and invariants of
    idle bystanders survive every tolerable change. */
module ProtocolSafety {
  import opened Base
  import opened Sizing
  import opened Chain
  import opened Protocol

  // ---------------------------------------------------------------- invariants

  /** The fill overshoot of stage i is paid for by distinct clients and by calls cut off there. */
  predicate OvershootPaid(sh: Shared, i: nat)
    requires i < |sh.chain| && i < |sh.late| && i < |sh.cut|
  {
    sh.chain[i].fill + 1 <= sh.chain[i].capacity + |sh.late[i]| + sh.cut[i]
  }

  /** A stage with a successor, or at which a call was cut off before growing, is full. */
  predicate GrewWhenFull(sh: Shared, i: nat)
    requires i < |sh.chain| && i < |sh.cut|
  {
    i + 1 < |sh.chain| || sh.cut[i] > 0 ==> sh.chain[i].fill >= sh.chain[i].capacity
  }

  ghost predicate HistoryInv(cfg: Config, sh: Shared) {
    && (forall x :: x in sh.acked ==> cfg.Member(x, sh.chain))
    && TotalFill(sh.chain) == sh.incs
  }

  /** A write adrift aims at a stored stage, or at the one after a stage that is full. */
  predicate AimedWell(cfg: Config, ch: Stages, d: Straggler) {
    match d
    case LateBit(i, _) => i < |ch|
    case LateIncr(i) => i < |ch|
    case LateAppend(i) => 1 <= i <= |ch| && cfg.plan(i).Ok? && ch[i - 1].fill >= ch[i - 1].capacity
  }

  predicate AdriftInv(cfg: Config, sh: Shared) {
    forall d :: d in sh.adrift ==> AimedWell(cfg, sh.chain, d)
  }

  ghost predicate SharedInv(cfg: Config, sh: Shared) {
    && Planned(cfg, sh.chain)
    && |sh.late| == |sh.chain| && |sh.cut| == |sh.chain|
    && HistoryInv(cfg, sh) && AdriftInv(cfg, sh)
    && (forall i :: 0 <= i < |sh.chain| ==> GrewWhenFull(sh, i))
    && (forall i :: 0 <= i < |sh.chain| && cfg.plan(i + 1).Ok? ==> OvershootPaid(sh, i))
  }

  /** The stages read so far lie between the chain at the start of the call and the chain now. */
  predicate LoadedOk(loaded: seq<Stage>, start: Stages, now: Stages) {
    && HandleOk(loaded, now)
    && (forall i :: 0 <= i < |loaded| ==> loaded[i].fill <= now[i].fill)
    && (forall i :: 0 <= i < |loaded| && i < |start| ==> start[i].fill <= loaded[i].fill)
  }

  ghost predicate Covered(cfg: Config, x: Item, s: StageState, c: Cursor) {
    forall q :: q in cfg.targets(x, s.m, s.k) ==> q in s.bits || q in Pending(c)
  }

  ghost predicate Within(cfg: Config, x: Item, s: StageState, c: Cursor) {
    forall q :: q in Pending(c) ==> q in cfg.targets(x, s.m, s.k)
  }

  /** No stage of the handle newer than i held x when the call began. */
  predicate NoneNewer(cfg: Config, x: Item, start: Stages, handleLength: nat, i: int) {
    forall w :: 0 <= w < |start| && w < handleLength && w > i ==> !cfg.Hit(x, start[w])
  }

  ghost predicate PcInv(cfg: Config, sh: Shared, cl: Client) {
    match cl.pc
    case Idle => true
    case LoadMeta => LoadingInv(cfg, sh, cl)
    case LoadStage(count, loaded) =>
      LoadingInv(cfg, sh, cl) && |cl.start.chain| <= count <= |sh.chain| && |loaded| <= count
      && LoadedOk(loaded, cl.start.chain, sh.chain)
    case LoadFill(count, loaded, next) =>
      LoadingInv(cfg, sh, cl) && |cl.start.chain| <= count <= |sh.chain| && |loaded| < count
      && LoadedOk(loaded, cl.start.chain, sh.chain)
      && Agree(next, |loaded|, sh.chain[|loaded|])
    case Setting(cursor) =>
      cl.call.AddCall? && 0 < |cl.handle| <= |sh.chain|
      && Covered(cfg, cl.call.item, sh.chain[|cl.handle| - 1], cursor)
    case Appending => WroteInv(cfg, sh, cl)
    case Probing(stage, cursor, hit) =>
      && cl.call.ExistsCall? && stage < |cl.handle| <= |sh.chain|
      && (cl.viaLoad ==> |cl.start.chain| <= |cl.handle|)
      && Within(cfg, cl.call.item, sh.chain[stage], cursor)
      && (hit ==> Covered(cfg, cl.call.item, sh.chain[stage], cursor))
      && NoneNewer(cfg, cl.call.item, cl.start.chain, |cl.handle|, stage)
      && (!hit ==> NoneNewer(cfg, cl.call.item, cl.start.chain, |cl.handle|, stage - 1))
    case Added => cl.call.AddCall? && cl.call.item in sh.acked
    case Answered(found) =>
      && cl.call.ExistsCall? && |cl.handle| <= |sh.chain|
      && (cl.viaLoad ==> |cl.start.chain| <= |cl.handle|)
      && (found ==> cfg.Member(cl.call.item, sh.chain[..|cl.handle|]))
      && (!found ==> NoneNewer(cfg, cl.call.item, cl.start.chain, |cl.handle|, -1))
    case Reported(items) => cl.start.incs <= items <= sh.incs
    case Failed => true
  }

  /** The client's item is wholly in the newest stage of its handle, and that stage is full. */
  ghost predicate WroteInv(cfg: Config, sh: Shared, cl: Client) {
    && cl.call.AddCall? && 0 < |cl.handle| <= |sh.chain|
    && cfg.Hit(cl.call.item, sh.chain[|cl.handle| - 1])
    && sh.chain[|cl.handle| - 1].fill >= sh.chain[|cl.handle| - 1].capacity
  }

  ghost predicate LoadingInv(cfg: Config, sh: Shared, cl: Client) {
    if cl.reloading then WroteInv(cfg, sh, cl) else cl.viaLoad && cl.handle == []
  }

  ghost predicate ClientInv(cfg: Config, sh: Shared, cl: Client) {
    && Grows(cl.start.chain, sh.chain) && |cl.start.chain| >= 1
    && HistoryInv(cfg, cl.start) && cl.start.incs <= sh.incs
    && HandleOk(cl.handle, sh.chain)
    && PcInv(cfg, sh, cl)
  }

  /** A client whose increment reached the capacity of stage i is about to append stage i + 1, or
      knows of it, or will read of it before it increments again. */
  predicate MovedOn(sh: Shared, cl: Client, i: nat) {
    || (cl.pc.Appending? && |cl.handle| == i + 1)
    || (|sh.chain| >= i + 2 &&
        match cl.pc
        case LoadMeta => cl.handle == [] || |cl.handle| > i
        case LoadStage(count, _) => count >= i + 2 && (cl.handle == [] || |cl.handle| > i)
        case LoadFill(count, _, _) => count >= i + 2 && (cl.handle == [] || |cl.handle| > i)
        case _ => cl.handle == [] || |cl.handle| >= i + 2)
  }

  predicate LateInv(cfg: Config, sh: Shared, id: Id, cl: Client) {
    forall i :: 0 <= i < |sh.late| && id in sh.late[i] && cfg.plan(i + 1).Ok? ==> MovedOn(sh, cl, i)
  }

  predicate NewestFull(sh: Shared)
    requires sh.chain != []
  {
    Last(sh.chain).fill >= Last(sh.chain).capacity
  }

  predicate AboutToAppend(s: Sys, id: Id) {
    id in s.clients && s.clients[id].pc.Appending? && |s.clients[id].handle| == |s.sh.chain|
  }

  /** Some call was cut off between filling the newest stage and growing it. */
  predicate NewestCut(sh: Shared) {
    sh.chain != [] && |sh.cut| == |sh.chain| && Last(sh.cut) > 0
  }

  ghost predicate AppendPending(cfg: Config, s: Sys) {
    s.sh.chain != [] && !NewestCut(s.sh) && NewestFull(s.sh) && cfg.plan(|s.sh.chain|).Ok? ==>
      exists id :: AboutToAppend(s, id)
  }

  ghost predicate Inv(cfg: Config, s: Sys) {
    && SharedInv(cfg, s.sh)
    && (forall id :: id in s.clients ==> ClientInv(cfg, s.sh, s.clients[id]))
    && (forall id :: id in s.clients ==> LateInv(cfg, s.sh, id, s.clients[id]))
    && (forall i :: 0 <= i < |s.sh.late| ==> s.sh.late[i] <= s.clients.Keys)
    && AppendPending(cfg, s)
  }

  // ---------------------------------------------------------------- what bystanders tolerate

  ghost predicate Tolerable(id: Id, a: Shared, b: Shared) {
    && Grows(a.chain, b.chain) && a.incs <= b.incs && a.acked <= b.acked
    && |a.late| <= |b.late|
    && (forall i :: 0 <= i < |a.late| ==> a.late[i] - {id} <= b.late[i] <= a.late[i] + {id})
    && (forall i :: |a.late| <= i < |b.late| ==> b.late[i] == {})
    && |a.cut| <= |b.cut| && (forall i :: 0 <= i < |a.cut| ==> a.cut[i] <= b.cut[i])
  }

  lemma GrowsReflexive(ch: Stages)
    ensures Grows(ch, ch)
  {
  }

  lemma HandleGrows(handle: seq<Stage>, a: Stages, b: Stages)
    requires HandleOk(handle, a) && Grows(a, b)
    ensures HandleOk(handle, b)
  {
    forall i | 0 <= i < |handle|
      ensures Agree(handle[i], i, b[i])
    {
      assert StageGrows(a[i], b[i]);
    }
  }

  lemma LoadedGrows(loaded: seq<Stage>, start: Stages, a: Stages, b: Stages)
    requires LoadedOk(loaded, start, a) && Grows(a, b)
    ensures LoadedOk(loaded, start, b)
  {
    HandleGrows(loaded, a, b);
    forall i | 0 <= i < |loaded|
      ensures loaded[i].fill <= b[i].fill
    {
      assert StageGrows(a[i], b[i]);
    }
  }

  lemma Bystander(cfg: Config, id: Id, a: Shared, b: Shared, cl: Client)
    requires ClientInv(cfg, a, cl) && Tolerable(id, a, b)
    ensures ClientInv(cfg, b, cl)
  {
    GrowsTransitive(cl.start.chain, a.chain, b.chain);
    HandleGrows(cl.handle, a.chain, b.chain);
    if 0 < |cl.handle| {
      assert StageGrows(a.chain[|cl.handle| - 1], b.chain[|cl.handle| - 1]);
    }
    match cl.pc
    case LoadStage(count, loaded) =>
      LoadedGrows(loaded, cl.start.chain, a.chain, b.chain);
    case LoadFill(count, loaded, next) =>
      LoadedGrows(loaded, cl.start.chain, a.chain, b.chain);
      assert StageGrows(a.chain[|loaded|], b.chain[|loaded|]);
    case Probing(stage, cursor, hit) =>
      assert StageGrows(a.chain[stage], b.chain[stage]);
    case Answered(found) =>
      if found {
        PrefixGrows(a.chain, b.chain, |cl.handle|);
        MemberGrows(cfg, cl.call.item, a.chain[..|cl.handle|], b.chain[..|cl.handle|]);
      }
    case _ =>
  }

  lemma AdriftGrows(cfg: Config, a: Shared, b: Shared)
    requires AdriftInv(cfg, a) && Grows(a.chain, b.chain) && b.adrift <= a.adrift
    ensures AdriftInv(cfg, b)
  {
    forall d | d in b.adrift
      ensures AimedWell(cfg, b.chain, d)
    {
      assert AimedWell(cfg, a.chain, d);
      if d.LateAppend? {
        assert StageGrows(a.chain[d.stage - 1], b.chain[d.stage - 1]);
      }
    }
  }

  lemma BystanderLate(cfg: Config, id: Id, a: Shared, b: Shared, other: Id, cl: Client)
    requires other != id && LateInv(cfg, a, other, cl) && Tolerable(id, a, b)
    ensures LateInv(cfg, b, other, cl)
  {
    forall i | 0 <= i < |b.late| && other in b.late[i] && cfg.plan(i + 1).Ok?
      ensures MovedOn(b, cl, i)
    {
      assert i < |a.late| && other in a.late[i];
      assert MovedOn(a, cl, i);
    }
  }

  // ---------------------------------------------------------------- each step keeps the invariants

  ghost predicate Ready(cfg: Config, id: Id, sh: Shared, cl: Client) {
    cfg.Sound() && SharedInv(cfg, sh) && ClientInv(cfg, sh, cl) && LateInv(cfg, sh, id, cl)
  }

  /** What one step can do to the chain, to an append in preparation, and to the call's memory. */
  predicate Effect(cfg: Config, sh: Shared, cl: Client, sh': Shared, cl': Client)
    requires sh.chain != [] && sh'.chain != []
  {
    && (|sh'.chain| == |sh.chain| ||
        (cfg.plan(|sh.chain|).Ok? && sh'.chain == sh.chain + [Fresh(cfg.plan(|sh.chain|).value)]))
    && (|sh'.chain| == |sh.chain| && NewestFull(sh') && !NewestFull(sh) ==>
        cl'.pc.Appending? && |cl'.handle| == |sh.chain|)
    && (cl.pc.Appending? && |cl.handle| == |sh.chain| && cfg.plan(|sh.chain|).Ok? ==>
        NewestCut(sh') || |sh'.chain| > |sh.chain|)
    && (|sh'.chain| == |sh.chain| && NewestCut(sh) ==> NewestCut(sh'))
    && (!Resting(cl.pc) ==> cl'.start == cl.start && cl'.call == cl.call && cl'.viaLoad == cl.viaLoad)
  }

  ghost predicate Kept(cfg: Config, id: Id, sh: Shared, cl: Client, sh': Shared, cl': Client) {
    && SharedInv(cfg, sh') && ClientInv(cfg, sh', cl') && Tolerable(id, sh, sh') && LateInv(cfg, sh', id, cl')
    && sh.chain != [] && Effect(cfg, sh, cl, sh', cl')
  }

  lemma EnterKeeps(cfg: Config, sh: Shared, cl: Client)
    requires cl.handle != [] && HandleOk(cl.handle, sh.chain)
    requires cl.pc == Enter(cfg, cl.call, cl.handle) && !cl.call.StatsCall?
    requires cl.viaLoad ==> |cl.start.chain| <= |cl.handle|
    ensures PcInv(cfg, sh, cl)
  {
    var i := |cl.handle| - 1;
    assert Agree(cl.handle[i], i, sh.chain[i]);
    BeginPending(cfg.targets(cl.call.item, cl.handle[i].m, cl.handle[i].k));
  }

  lemma BeginKeeps(cfg: Config, id: Id, sh: Shared, cl: Client, sh': Shared, cl': Client)
    requires Ready(cfg, id, sh, cl)
    requires BeginFresh(cfg, sh, cl, sh', cl') || BeginRetained(cfg, sh, cl, sh', cl')
    ensures Kept(cfg, id, sh, cl, sh', cl')
  {
    GrowsReflexive(sh.chain);
    if BeginFresh(cfg, sh, cl, sh', cl') {
      assert PcInv(cfg, sh', cl');
    } else {
      EnterKeeps(cfg, sh', cl');
    }
    forall i | 0 <= i < |sh.late| && id in sh.late[i] && cfg.plan(i + 1).Ok?
      ensures MovedOn(sh', cl', i)
    {
      assert MovedOn(sh, cl, i);
    }
  }

  lemma {:induction false} FillSumBetween(loaded: seq<Stage>, start: Stages, now: Stages)
    requires |loaded| <= |now| && forall i :: 0 <= i < |loaded| ==> loaded[i].fill <= now[i].fill
    requires |start| <= |loaded| && forall i :: 0 <= i < |start| ==> start[i].fill <= loaded[i].fill
    ensures TotalFill(start) <= FillSum(loaded) <= TotalFill(now)
    decreases |now|
  {
    if |now| > |loaded| {
      FillSumBetween(loaded, start, now[..|now| - 1]);
    } else if loaded != [] {
      var front := loaded[..|loaded| - 1];
      if |start| == |loaded| {
        FillSumBetween(front, start[..|start| - 1], now[..|now| - 1]);
      } else {
        FillSumBetween(front, start, now[..|now| - 1]);
      }
    }
  }

  lemma LoadKeeps(cfg: Config, id: Id, sh: Shared, cl: Client, sh': Shared, cl': Client)
    requires Ready(cfg, id, sh, cl)
    requires ReadMeta(cfg, sh, cl, sh', cl') || ReadStage(cfg, sh, cl, sh', cl') || ReadFill(cfg, sh, cl, sh', cl')
    ensures Kept(cfg, id, sh, cl, sh', cl')
  {
    hide TotalFill, HistoryInv, Covered, Within, NoneNewer;
    GrowsReflexive(sh.chain);
    if ReadFill(cfg, sh, cl, sh', cl') {
      var i := |cl.pc.loaded|;
      if i < |cl.start.chain| {
        assert StageGrows(cl.start.chain[i], sh.chain[i]);
      }
      assert LoadedOk(cl'.pc.loaded, cl.start.chain, sh.chain);
    }
    assert PcInv(cfg, sh', cl');
    forall i | 0 <= i < |sh.late| && id in sh.late[i] && cfg.plan(i + 1).Ok?
      ensures MovedOn(sh', cl', i)
    {
      assert MovedOn(sh, cl, i);
    }
  }

  lemma LoadDoneKeeps(cfg: Config, id: Id, sh: Shared, cl: Client, sh': Shared, cl': Client)
    requires Ready(cfg, id, sh, cl)
    requires LoadDone(cfg, sh, cl, sh', cl')
    ensures Kept(cfg, id, sh, cl, sh', cl')
  {
    GrowsReflexive(sh.chain);
    if cl.call.StatsCall? {
      FillSumBetween(cl.pc.loaded, cl.start.chain, sh.chain);
    } else {
      EnterKeeps(cfg, sh', cl');
    }
    assert PcInv(cfg, sh', cl');
    forall i | 0 <= i < |sh.late| && id in sh.late[i] && cfg.plan(i + 1).Ok?
      ensures MovedOn(sh', cl', i)
    {
      assert MovedOn(sh, cl, i);
    }
  }

  lemma ReloadDoneKeeps(cfg: Config, id: Id, sh: Shared, cl: Client, sh': Shared, cl': Client)
    requires Ready(cfg, id, sh, cl)
    requires ReloadDone(cfg, sh, cl, sh', cl')
    ensures Kept(cfg, id, sh, cl, sh', cl')
  {
    hide TotalFill, Covered, Within, NoneNewer;
    GrowsReflexive(sh.chain);
    assert cfg.Member(cl.call.item, sh.chain);
    assert forall i :: 0 <= i < |sh.chain| && cfg.plan(i + 1).Ok? ==> OvershootPaid(sh, i) ==> OvershootPaid(sh', i);
    forall i | 0 <= i < |sh.late| && id in sh.late[i] && cfg.plan(i + 1).Ok?
      ensures MovedOn(sh', cl', i)
    {
      assert MovedOn(sh, cl, i);
    }
    assert forall i :: 0 <= i < |sh.chain| ==> GrewWhenFull(sh, i) ==> GrewWhenFull(sh', i);
  }

  lemma SetBitGrows(ch: Stages, i: nat, q: nat)
    requires i < |ch|
    ensures Grows(ch, SetBit(ch, i, q))
  {
  }

  lemma AckedGrow(cfg: Config, acked: set<Item>, a: Stages, b: Stages)
    requires Grows(a, b) && forall x :: x in acked ==> cfg.Member(x, a)
    ensures forall x :: x in acked ==> cfg.Member(x, b)
  {
    forall x | x in acked
      ensures cfg.Member(x, b)
    {
      MemberGrows(cfg, x, a, b);
    }
  }

  lemma PickKeeps(cfg: Config, id: Id, sh: Shared, cl: Client, sh': Shared, cl': Client)
    requires Ready(cfg, id, sh, cl)
    requires PickShard(cfg, sh, cl, sh', cl')
    ensures Kept(cfg, id, sh, cl, sh', cl')
  {
    GrowsReflexive(sh.chain);
    var j :| j in cl.pc.cursor.groups && cl' == cl.(pc := Setting(Pick(cl.pc.cursor, j)));
    PickPending(cl.pc.cursor, j);
    assert PcInv(cfg, sh', cl');
    forall i | 0 <= i < |sh.late| && id in sh.late[i] && cfg.plan(i + 1).Ok?
      ensures MovedOn(sh', cl', i)
    {
      assert MovedOn(sh, cl, i);
    }
  }

  lemma SetShared(cfg: Config, id: Id, sh: Shared, cl: Client, sh': Shared, cl': Client)
    requires SharedInv(cfg, sh)
    requires SetOne(cfg, sh, cl, sh', cl')
    ensures SharedInv(cfg, sh') && Tolerable(id, sh, sh') && |sh'.chain| == |sh.chain|
    ensures NewestFull(sh') == NewestFull(sh)
  {
    hide Head, Advance;
    var i := |cl.handle| - 1;
    SetBitGrows(sh.chain, i, Head(cl.pc.cursor));
    TotalFillSetBit(sh.chain, i, Head(cl.pc.cursor));
    AckedGrow(cfg, sh.acked, sh.chain, sh'.chain);
    forall j | 0 <= j < |sh.chain|
      ensures GrewWhenFull(sh', j)
    {
      assert GrewWhenFull(sh, j);
    }
    forall j | 0 <= j < |sh.chain| && cfg.plan(j + 1).Ok?
      ensures OvershootPaid(sh', j)
    {
      assert OvershootPaid(sh, j);
    }
  }

  lemma SetKeeps(cfg: Config, id: Id, sh: Shared, cl: Client, sh': Shared, cl': Client)
    requires Ready(cfg, id, sh, cl)
    requires SetOne(cfg, sh, cl, sh', cl')
    ensures Kept(cfg, id, sh, cl, sh', cl')
  {
    SetShared(cfg, id, sh, cl, sh', cl');
    AdvancePending(cl.pc.cursor);
    HandleGrows(cl.handle, sh.chain, sh'.chain);
    GrowsTransitive(cl.start.chain, sh.chain, sh'.chain);
    assert PcInv(cfg, sh', cl');
    forall i | 0 <= i < |sh.late| && id in sh.late[i] && cfg.plan(i + 1).Ok?
      ensures MovedOn(sh', cl', i)
    {
      assert MovedOn(sh, cl, i);
    }
  }

  lemma FinishedHits(cfg: Config, x: Item, s: StageState, c: Cursor)
    requires Covered(cfg, x, s, c) && Finished(c)
    ensures cfg.Hit(x, s)
  {
    assert Pending(c) == {};
  }

  lemma BumpGrows(ch: Stages, i: nat)
    requires i < |ch|
    ensures Grows(ch, Bump(ch, i))
  {
  }

  lemma BumpShared(cfg: Config, id: Id, sh: Shared, cl: Client, sh': Shared, cl': Client)
    requires Ready(cfg, id, sh, cl)
    requires BumpFill(cfg, id, sh, cl, sh', cl')
    ensures SharedInv(cfg, sh') && Tolerable(id, sh, sh')
    ensures cfg.Hit(cl.call.item, sh'.chain[|cl.handle| - 1])
  {
    hide TotalFill, Covered, LoadingInv, LoadedOk, Within, NoneNewer;
    var i := |cl.handle| - 1;
    BumpGrows(sh.chain, i);
    TotalFillBump(sh.chain, i);
    AckedGrow(cfg, sh.acked, sh.chain, sh'.chain);
    FinishedHits(cfg, cl.call.item, sh.chain[i], cl.pc.cursor);
    assert Agree(cl.handle[i], i, sh.chain[i]);
    assert cfg.Member(cl.call.item, sh'.chain);
    forall j | 0 <= j < |sh'.chain|
      ensures GrewWhenFull(sh', j)
    {
      assert GrewWhenFull(sh, j);
    }
    forall j | 0 <= j < |sh'.chain| && cfg.plan(j + 1).Ok?
      ensures OvershootPaid(sh', j)
    {
      assert OvershootPaid(sh, j);
      if j == i {
        assert !MovedOn(sh, cl, i) && id !in sh.late[i];
      }
    }
  }

  lemma HandleRefilled(handle: seq<Stage>, ch: Stages, i: nat, fill: nat)
    requires HandleOk(handle, ch) && i < |handle|
    ensures handle[i].capacity == ch[i].capacity
    ensures HandleOk(handle[i := handle[i].(fill := fill)], ch)
  {
    assert Agree(handle[i], i, ch[i]);
  }

  lemma BumpKeeps(cfg: Config, id: Id, sh: Shared, cl: Client, sh': Shared, cl': Client)
    requires Ready(cfg, id, sh, cl)
    requires BumpFill(cfg, id, sh, cl, sh', cl')
    ensures Kept(cfg, id, sh, cl, sh', cl')
  {
    hide TotalFill, Covered, LoadingInv, LoadedOk, Within, NoneNewer, Finished, HandleOk, Grows, HistoryInv;
    var i := |cl.handle| - 1;
    BumpShared(cfg, id, sh, cl, sh', cl');
    GrowsTransitive(cl.start.chain, sh.chain, sh'.chain);
    HandleGrows(cl.handle, sh.chain, sh'.chain);
    HandleRefilled(cl.handle, sh'.chain, i, sh.chain[i].fill + 1);
    assert PcInv(cfg, sh', cl');
    forall j | 0 <= j < |sh'.late| && id in sh'.late[j] && cfg.plan(j + 1).Ok?
      ensures MovedOn(sh', cl', j)
    {
      if id in sh.late[j] {
        assert MovedOn(sh, cl, j);
      }
    }
  }

  /** A stage appended after a full one keeps the store sound. */
  lemma ExtensionKeeps(cfg: Config, id: Id, sh: Shared, chain': Stages)
    requires cfg.Sound() && SharedInv(cfg, sh) && NewestFull(sh) && cfg.plan(|sh.chain|).Ok?
    requires chain' == sh.chain + [Fresh(cfg.plan(|sh.chain|).value)]
    ensures SharedInv(cfg, Extended(sh, chain')) && Tolerable(id, sh, Extended(sh, chain'))
  {
    hide TotalFill;
    var sh' := Extended(sh, chain');
    assert Grows(sh.chain, sh'.chain);
    TotalFillFresh(sh.chain, cfg.plan(|sh.chain|).value);
    AckedGrow(cfg, sh.acked, sh.chain, sh'.chain);
    AdriftGrows(cfg, sh, sh');
    hide AdriftInv;
    forall j | 0 <= j < |sh'.chain|
      ensures GrewWhenFull(sh', j)
    {
      if j < |sh.chain| {
        assert GrewWhenFull(sh, j);
      }
    }
    forall j | 0 <= j < |sh'.chain| && cfg.plan(j + 1).Ok?
      ensures OvershootPaid(sh', j)
    {
      if j < |sh.chain| {
        assert OvershootPaid(sh, j);
      }
    }
  }

  /** Acknowledging items that are stored, and losing writes adrift, changes nothing else. */
  lemma Relabelled(cfg: Config, a: Shared, b: Shared)
    requires SharedInv(cfg, a) && b == a.(acked := b.acked, adrift := b.adrift) && b.adrift <= a.adrift
    requires forall x :: x in b.acked ==> cfg.Member(x, a.chain)
    ensures SharedInv(cfg, b)
  {
    forall j | 0 <= j < |b.chain|
      ensures GrewWhenFull(b, j)
    {
      assert GrewWhenFull(a, j);
    }
    forall j | 0 <= j < |b.chain| && cfg.plan(j + 1).Ok?
      ensures OvershootPaid(b, j)
    {
      assert OvershootPaid(a, j);
    }
  }

  lemma AppendShared(cfg: Config, id: Id, sh: Shared, cl: Client, sh': Shared, cl': Client)
    requires cfg.Sound() && SharedInv(cfg, sh) && WroteInv(cfg, sh, cl) && |cl.handle| == |sh.chain|
    requires Grow(cfg, sh, cl, sh', cl') && cfg.plan(|cl.handle|).Ok?
    ensures SharedInv(cfg, sh') && Tolerable(id, sh, sh')
    ensures cl.call.item in sh'.acked && |sh'.chain| == |sh.chain| + 1
    ensures sh'.chain == sh.chain + [Fresh(cfg.plan(|sh.chain|).value)]
  {
    ExtensionKeeps(cfg, id, sh, sh'.chain);
    assert cfg.Hit(cl.call.item, sh'.chain[|cl.handle| - 1]);
    hide AdriftInv, GrewWhenFull, OvershootPaid, Planned, Grows, TotalFill;
    Relabelled(cfg, Extended(sh, sh'.chain), sh');
  }

  /** A loser of the race changes no stage. */
  lemma LostShared(cfg: Config, id: Id, sh: Shared, cl: Client, sh': Shared, cl': Client)
    requires SharedInv(cfg, sh) && WroteInv(cfg, sh, cl)
    requires Grow(cfg, sh, cl, sh', cl') && (|cl.handle| < |sh.chain| || cfg.plan(|cl.handle|).Err?)
    ensures SharedInv(cfg, sh') && Tolerable(id, sh, sh') && sh'.chain == sh.chain && sh'.late == sh.late
  {
    GrowsReflexive(sh.chain);
    assert cfg.Member(cl.call.item, sh.chain);
    assert forall j :: 0 <= j < |sh.chain| ==> GrewWhenFull(sh, j) ==> GrewWhenFull(sh', j);
    assert forall j :: 0 <= j < |sh.chain| && cfg.plan(j + 1).Ok? ==> OvershootPaid(sh, j) ==> OvershootPaid(sh', j);
  }

  lemma WinKeeps(cfg: Config, id: Id, sh: Shared, cl: Client, sh': Shared, cl': Client)
    requires Ready(cfg, id, sh, cl)
    requires Grow(cfg, sh, cl, sh', cl') && |cl.handle| == |sh.chain| && cfg.plan(|cl.handle|).Ok?
    ensures Kept(cfg, id, sh, cl, sh', cl')
  {
    AppendShared(cfg, id, sh, cl, sh', cl');
    GrowsTransitive(cl.start.chain, sh.chain, sh'.chain);
    HandleGrows(cl.handle, sh.chain, sh'.chain);
    assert HandleOk(cl'.handle, sh'.chain);
    assert PcInv(cfg, sh', cl');
    forall j | 0 <= j < |sh'.late| && id in sh'.late[j] && cfg.plan(j + 1).Ok?
      ensures MovedOn(sh', cl', j)
    {
      assert j < |sh.late| && MovedOn(sh, cl, j);
    }
  }

  lemma LoseKeeps(cfg: Config, id: Id, sh: Shared, cl: Client, sh': Shared, cl': Client)
    requires Ready(cfg, id, sh, cl)
    requires Grow(cfg, sh, cl, sh', cl') && (|cl.handle| < |sh.chain| || cfg.plan(|cl.handle|).Err?)
    ensures Kept(cfg, id, sh, cl, sh', cl')
  {
    hide TotalFill, Covered, LoadedOk, Within, NoneNewer, Grows, HistoryInv;
    var idx := |cl.handle|;
    LostShared(cfg, id, sh, cl, sh', cl');
    if idx < |sh.chain| {
      assert Agree(cfg.plan(idx).value, idx, sh.chain[idx]);
    }
    assert HandleOk(cl'.handle, sh'.chain);
    assert PcInv(cfg, sh', cl');
    forall j | 0 <= j < |sh.late| && id in sh.late[j] && cfg.plan(j + 1).Ok?
      ensures MovedOn(sh', cl', j)
    {
      assert MovedOn(sh, cl, j);
    }
  }

  lemma ProbeStageKeeps(cfg: Config, sh: Shared, cl: Client, i: nat)
    requires cl.call.ExistsCall? && i < |cl.handle| && HandleOk(cl.handle, sh.chain)
    requires cl.viaLoad ==> |cl.start.chain| <= |cl.handle|
    requires NoneNewer(cfg, cl.call.item, cl.start.chain, |cl.handle|, i)
    requires cl.pc == ProbeStage(cfg, cl.call.item, cl.handle, i)
    ensures PcInv(cfg, sh, cl)
  {
    assert Agree(cl.handle[i], i, sh.chain[i]);
    BeginPending(cfg.targets(cl.call.item, cl.handle[i].m, cl.handle[i].k));
  }

  lemma ProbeOneKeeps(cfg: Config, sh: Shared, cl: Client, sh': Shared, cl': Client)
    requires ClientInv(cfg, sh, cl) && ProbeOne(cfg, sh, cl, sh', cl')
    ensures PcInv(cfg, sh', cl')
  {
    var i, x := cl.pc.stage, cl.call.item;
    AdvancePending(cl.pc.cursor);
    if cl.pc.hit && !cl'.pc.hit {
      // a clear bit of x: the stage did not hold x at the start either
      if i < |cl.start.chain| {
        assert StageGrows(cl.start.chain[i], sh.chain[i]);
        assert Head(cl.pc.cursor) in Pending(cl.pc.cursor);
        assert !cfg.Hit(x, cl.start.chain[i]);
      }
      assert NoneNewer(cfg, x, cl.start.chain, |cl.handle|, i - 1);
    }
  }

  lemma ProbeKeeps(cfg: Config, id: Id, sh: Shared, cl: Client, sh': Shared, cl': Client)
    requires Ready(cfg, id, sh, cl)
    requires ProbePick(cfg, sh, cl, sh', cl') || ProbeOne(cfg, sh, cl, sh', cl')
      || ProbeNext(cfg, sh, cl, sh', cl') || ProbeFound(cfg, sh, cl, sh', cl')
    ensures Kept(cfg, id, sh, cl, sh', cl')
  {
    hide TotalFill, HistoryInv, HandleOk, LoadedOk, LoadingInv;
    GrowsReflexive(sh.chain);
    ProbeClient(cfg, sh, cl, sh', cl');
    forall i | 0 <= i < |sh.late| && id in sh.late[i] && cfg.plan(i + 1).Ok?
      ensures MovedOn(sh', cl', i)
    {
      assert MovedOn(sh, cl, i);
    }
  }

  lemma ProbeClient(cfg: Config, sh: Shared, cl: Client, sh': Shared, cl': Client)
    requires ClientInv(cfg, sh, cl)
    requires ProbePick(cfg, sh, cl, sh', cl') || ProbeOne(cfg, sh, cl, sh', cl')
      || ProbeNext(cfg, sh, cl, sh', cl') || ProbeFound(cfg, sh, cl, sh', cl')
    ensures PcInv(cfg, sh', cl')
  {
    hide TotalFill, HistoryInv, HandleOk, LoadedOk, LoadingInv, Grows;
    if ProbePick(cfg, sh, cl, sh', cl') {
      var j :| j in cl.pc.cursor.groups && cl' == cl.(pc := cl.pc.(cursor := Pick(cl.pc.cursor, j)));
      PickPending(cl.pc.cursor, j);
    } else if ProbeOne(cfg, sh, cl, sh', cl') {
      ProbeOneKeeps(cfg, sh, cl, sh', cl');
    } else if ProbeNext(cfg, sh, cl, sh', cl') {
      if cl.pc.stage > 0 {
        ProbeStageKeeps(cfg, sh', cl', cl.pc.stage - 1);
      }
    } else {
      FinishedHits(cfg, cl.call.item, sh.chain[cl.pc.stage], cl.pc.cursor);
      assert cfg.Hit(cl.call.item, sh.chain[..|cl.handle|][cl.pc.stage]);
    }
  }

  lemma OneFewer(late: set<Id>, id: Id)
    ensures |late| <= |late - {id}| + 1
  {
    if id in late {
      assert late == (late - {id}) + {id};
    } else {
      assert late - {id} == late;
    }
  }

  lemma AbortShared(cfg: Config, id: Id, sh: Shared, cl: Client, sh': Shared, cl': Client)
    requires SharedInv(cfg, sh) && (FillingUp(cl) ==> WroteInv(cfg, sh, cl)) && |cl.handle| <= |sh.chain|
    requires Abort(cfg, id, sh, cl, sh', cl')
    ensures SharedInv(cfg, sh') && Tolerable(id, sh, sh') && sh'.chain == sh.chain
  {
    AbortAdrift(cfg, id, sh, cl, sh', cl');
    hide HistoryInv, FillingUp, Grows, AdriftInv, Leaves;
    GrowsReflexive(sh.chain);
    forall j | 0 <= j < |sh.chain|
      ensures GrewWhenFull(sh', j)
    {
      assert GrewWhenFull(sh, j);
    }
    forall j | 0 <= j < |sh.chain| && cfg.plan(j + 1).Ok?
      ensures OvershootPaid(sh', j)
    {
      assert OvershootPaid(sh, j);
      OneFewer(sh.late[j], id);
    }
    assert HistoryInv(cfg, sh') by {
      SameHistory(cfg, sh, sh');
    }
  }

  /** What a client leaves adrift is aimed where the client was. */
  lemma AbortAdrift(cfg: Config, id: Id, sh: Shared, cl: Client, sh': Shared, cl': Client)
    requires AdriftInv(cfg, sh) && (FillingUp(cl) ==> WroteInv(cfg, sh, cl)) && |cl.handle| <= |sh.chain|
    requires Abort(cfg, id, sh, cl, sh', cl')
    ensures AdriftInv(cfg, sh')
  {
    forall d | d in sh'.adrift
      ensures AimedWell(cfg, sh'.chain, d)
    {
      if d in sh.adrift {
        assert AimedWell(cfg, sh.chain, d);
      } else {
        assert Unanswered(cfg, cl, d);
      }
    }
  }

  lemma SameHistory(cfg: Config, a: Shared, b: Shared)
    requires HistoryInv(cfg, a) && b.chain == a.chain && b.acked == a.acked && b.incs == a.incs
    ensures HistoryInv(cfg, b)
  {
  }

  lemma AbortKeeps(cfg: Config, id: Id, sh: Shared, cl: Client, sh': Shared, cl': Client)
    requires Ready(cfg, id, sh, cl)
    requires Abort(cfg, id, sh, cl, sh', cl')
    ensures Kept(cfg, id, sh, cl, sh', cl')
  {
    hide TotalFill, HistoryInv, Covered, Within, NoneNewer, LoadedOk, HandleOk, OvershootPaid, GrewWhenFull;
    assert FillingUp(cl) ==> WroteInv(cfg, sh, cl);
    AbortShared(cfg, id, sh, cl, sh', cl');
    assert ClientInv(cfg, sh', cl');
    forall j | 0 <= j < |sh'.late| && id in sh'.late[j] && cfg.plan(j + 1).Ok?
      ensures MovedOn(sh', cl', j)
    {
      assert id in sh.late[j] && MovedOn(sh, cl, j);
    }
  }

  lemma StepKeeps(cfg: Config, id: Id, sh: Shared, cl: Client, sh': Shared, cl': Client)
    requires Ready(cfg, id, sh, cl) && ClientStep(cfg, id, sh, cl, sh', cl')
    ensures Kept(cfg, id, sh, cl, sh', cl')
  {
    if BeginFresh(cfg, sh, cl, sh', cl') || BeginRetained(cfg, sh, cl, sh', cl') {
      BeginKeeps(cfg, id, sh, cl, sh', cl');
    } else if ReadMeta(cfg, sh, cl, sh', cl') || ReadStage(cfg, sh, cl, sh', cl') || ReadFill(cfg, sh, cl, sh', cl') {
      LoadKeeps(cfg, id, sh, cl, sh', cl');
    } else if LoadDone(cfg, sh, cl, sh', cl') {
      LoadDoneKeeps(cfg, id, sh, cl, sh', cl');
    } else if ReloadDone(cfg, sh, cl, sh', cl') {
      ReloadDoneKeeps(cfg, id, sh, cl, sh', cl');
    } else if PickShard(cfg, sh, cl, sh', cl') {
      PickKeeps(cfg, id, sh, cl, sh', cl');
    } else if SetOne(cfg, sh, cl, sh', cl') {
      SetKeeps(cfg, id, sh, cl, sh', cl');
    } else if BumpFill(cfg, id, sh, cl, sh', cl') {
      BumpKeeps(cfg, id, sh, cl, sh', cl');
    } else if Grow(cfg, sh, cl, sh', cl') {
      if |cl.handle| == |sh.chain| && cfg.plan(|cl.handle|).Ok? {
        WinKeeps(cfg, id, sh, cl, sh', cl');
      } else {
        LoseKeeps(cfg, id, sh, cl, sh', cl');
      }
    } else if Abort(cfg, id, sh, cl, sh', cl') {
      AbortKeeps(cfg, id, sh, cl, sh', cl');
    } else {
      ProbeKeeps(cfg, id, sh, cl, sh', cl');
    }
  }

  // ---------------------------------------------------------------- writes that arrive late

  lemma BitArrives(cfg: Config, id: Id, d: Straggler, sh: Shared, sh': Shared)
    requires SharedInv(cfg, sh) && Arrives(cfg, d, sh, sh') && d.LateBit?
    ensures SharedInv(cfg, sh') && Tolerable(id, sh, sh')
  {
    SetBitGrows(sh.chain, d.stage, d.flat);
    TotalFillSetBit(sh.chain, d.stage, d.flat);
    AckedGrow(cfg, sh.acked, sh.chain, sh'.chain);
    AdriftGrows(cfg, sh, sh');
    forall j | 0 <= j < |sh.chain|
      ensures GrewWhenFull(sh', j)
    {
      assert GrewWhenFull(sh, j);
    }
    forall j | 0 <= j < |sh.chain| && cfg.plan(j + 1).Ok?
      ensures OvershootPaid(sh', j)
    {
      assert OvershootPaid(sh, j);
    }
  }

  lemma IncrArrives(cfg: Config, id: Id, d: Straggler, sh: Shared, sh': Shared)
    requires SharedInv(cfg, sh) && Arrives(cfg, d, sh, sh') && d.LateIncr?
    ensures SharedInv(cfg, sh') && Tolerable(id, sh, sh')
  {
    BumpGrows(sh.chain, d.stage);
    TotalFillBump(sh.chain, d.stage);
    AckedGrow(cfg, sh.acked, sh.chain, sh'.chain);
    AdriftGrows(cfg, sh, sh');
    forall j | 0 <= j < |sh.chain|
      ensures GrewWhenFull(sh', j)
    {
      assert GrewWhenFull(sh, j);
    }
    forall j | 0 <= j < |sh.chain| && cfg.plan(j + 1).Ok?
      ensures OvershootPaid(sh', j)
    {
      assert OvershootPaid(sh, j);
    }
  }

  lemma AppendArrives(cfg: Config, id: Id, d: Straggler, sh: Shared, sh': Shared)
    requires cfg.Sound() && SharedInv(cfg, sh) && Arrives(cfg, d, sh, sh') && d.LateAppend?
    ensures SharedInv(cfg, sh') && Tolerable(id, sh, sh')
  {
    assert AimedWell(cfg, sh.chain, d);
    GrowsReflexive(sh.chain);
    if d.stage == |sh.chain| {
      ExtensionKeeps(cfg, id, sh, sh'.chain);
    }
    hide AdriftInv, GrewWhenFull, OvershootPaid, Planned, Grows, TotalFill;
    Relabelled(cfg, Extended(sh, sh'.chain), sh');
  }

  /** A write that arrives after its caller has given up keeps the store sound, and is a change that
      every client tolerates. */
  lemma ArrivesKeeps(cfg: Config, id: Id, d: Straggler, sh: Shared, sh': Shared)
    requires cfg.Sound() && SharedInv(cfg, sh) && Arrives(cfg, d, sh, sh')
    ensures SharedInv(cfg, sh') && Tolerable(id, sh, sh')
    ensures |sh'.chain| <= |sh.chain| + 1 && (sh'.late == sh.late || sh'.late == sh.late + [{}])
  {
    hide SharedInv, Tolerable;
    match d
    case LateBit(_, _) => BitArrives(cfg, id, d, sh, sh');
    case LateIncr(_) => IncrArrives(cfg, id, d, sh, sh');
    case LateAppend(_) => AppendArrives(cfg, id, d, sh, sh');
  }

  lemma DriftKeepsPending(cfg: Config, d: Straggler, s: Sys, s': Sys)
    requires cfg.Sound() && AppendPending(cfg, s) && SharedInv(cfg, s.sh) && Drift(cfg, d, s, s')
    ensures AppendPending(cfg, s')
  {
    hide HistoryInv, AdriftInv;
    if !NewestCut(s'.sh) && NewestFull(s'.sh) && cfg.plan(|s'.sh.chain|).Ok? {
      assert |s'.sh.chain| == |s.sh.chain| && NewestFull(s.sh);
      var w :| AboutToAppend(s, w);
      assert AboutToAppend(s', w);
    }
  }

  lemma DriftKeepsInv(cfg: Config, d: Straggler, s: Sys, s': Sys)
    requires cfg.Sound() && Inv(cfg, s) && Drift(cfg, d, s, s')
    ensures Inv(cfg, s') && Carried(s, s')
  {
    hide ClientInv, LateInv, SharedInv, AppendPending, Arrives;
    ArrivesKeeps(cfg, 0, d, s.sh, s'.sh);
    DriftKeepsPending(cfg, d, s, s');
    forall other | other in s'.clients
      ensures ClientInv(cfg, s'.sh, s'.clients[other]) && LateInv(cfg, s'.sh, other, s'.clients[other])
    {
      ArrivesKeeps(cfg, other + 1, d, s.sh, s'.sh);
      Bystander(cfg, other + 1, s.sh, s'.sh, s.clients[other]);
      BystanderLate(cfg, other + 1, s.sh, s'.sh, other, s.clients[other]);
    }
  }

  // ---------------------------------------------------------------- the whole system

  /** Growth is never missed: whoever fills the newest stage is on the way to append. */
  lemma AppendStaysPending(cfg: Config, id: Id, s: Sys, s': Sys)
    requires cfg.Sound() && AppendPending(cfg, s) && s.sh.chain != [] && s'.sh.chain != []
    requires id in s.clients && id in s'.clients && s'.clients == s.clients[id := s'.clients[id]]
    requires Effect(cfg, s.sh, s.clients[id], s'.sh, s'.clients[id])
    ensures AppendPending(cfg, s')
  {
    if !NewestCut(s'.sh) && NewestFull(s'.sh) && cfg.plan(|s'.sh.chain|).Ok? {
      assert |s'.sh.chain| == |s.sh.chain|;
      if NewestFull(s.sh) {
        var w :| AboutToAppend(s, w);
        assert AboutToAppend(s', w);
      } else {
        assert AboutToAppend(s', id);
      }
    }
  }

  lemma SystemKeeps(cfg: Config, id: Id, s: Sys, s': Sys)
    requires cfg.Sound() && Inv(cfg, s)
    requires id in s.clients && id in s'.clients && s'.clients == s.clients[id := s'.clients[id]]
    requires Kept(cfg, id, s.sh, s.clients[id], s'.sh, s'.clients[id]) && AppendPending(cfg, s')
    ensures Inv(cfg, s')
  {
    hide ClientInv, LateInv, SharedInv, AppendPending, Effect, Grows;
    forall other | other in s'.clients
      ensures ClientInv(cfg, s'.sh, s'.clients[other]) && LateInv(cfg, s'.sh, other, s'.clients[other])
    {
      if other != id {
        Bystander(cfg, id, s.sh, s'.sh, s.clients[other]);
        BystanderLate(cfg, id, s.sh, s'.sh, other, s.clients[other]);
      }
    }
  }

  lemma StepByKeeps(cfg: Config, id: Id, s: Sys, s': Sys)
    requires cfg.Sound() && Inv(cfg, s) && StepBy(cfg, id, s, s')
    ensures Kept(cfg, id, s.sh, s.clients[id], s'.sh, s'.clients[id])
    ensures s'.clients == s.clients[id := s'.clients[id]]
  {
    hide ClientStep;
    StepKeeps(cfg, id, s.sh, s.clients[id], s'.sh, s'.clients[id]);
  }

  /** What each step of a run carries from one state to the next. */
  ghost predicate Carried(s: Sys, s': Sys) {
    && s'.clients.Keys == s.clients.Keys
    && Grows(s.sh.chain, s'.sh.chain) && |s'.sh.chain| <= |s.sh.chain| + 1 && s.sh.acked <= s'.sh.acked && s.sh.incs <= s'.sh.incs
    && forall id :: id in s.clients && !Resting(s.clients[id].pc) ==>
         && s'.clients[id].start == s.clients[id].start
         && s'.clients[id].call == s.clients[id].call
         && s'.clients[id].viaLoad == s.clients[id].viaLoad
  }

  lemma NextKeepsInv(cfg: Config, s: Sys, s': Sys)
    requires cfg.Sound() && Inv(cfg, s) && Next(cfg, s, s')
    ensures Inv(cfg, s') && Carried(s, s')
  {
    hide ClientStep, SharedInv, ClientInv, LateInv;
    if d :| Drift(cfg, d, s, s') {
      DriftKeepsInv(cfg, d, s, s');
    } else {
      var id :| StepBy(cfg, id, s, s');
      StepByKeeps(cfg, id, s, s');
      AppendStaysPending(cfg, id, s, s');
      SystemKeeps(cfg, id, s, s');
    }
  }

  lemma InitHasInv(cfg: Config, s: Sys)
    requires cfg.Sound() && Init(cfg, s)
    ensures Inv(cfg, s)
  {
    var st := cfg.plan(0).value;
    assert s.sh.chain[..0] == [];
    assert TotalFill(s.sh.chain) == 0;
    GrowsReflexive(s.sh.chain);
    assert OvershootPaid(s.sh, 0);
  }

  lemma {:induction false} InvAt(cfg: Config, run: seq<Sys>, i: nat)
    requires cfg.Sound() && IsRun(cfg, run) && i < |run|
    ensures Inv(cfg, run[i])
    ensures i > 0 ==> Carried(run[i - 1], run[i])
  {
    hide Next, Inv, Carried;
    if i == 0 {
      InitHasInv(cfg, run[0]);
    } else {
      InvAt(cfg, run, i - 1);
      assert StepAt(cfg, run, i - 1);
      NextKeepsInv(cfg, run[i - 1], run[i]);
    }
  }

  /** The chain is append-only along a run: each index is written once and keeps its parameters,
      bits and fills only grow, and no acknowledgement or increment is forgotten. */
  lemma {:induction false} RunGrows(cfg: Config, run: seq<Sys>, i: nat, j: nat)
    requires cfg.Sound() && IsRun(cfg, run) && i <= j < |run|
    ensures Grows(run[i].sh.chain, run[j].sh.chain)
    ensures run[i].sh.acked <= run[j].sh.acked && run[i].sh.incs <= run[j].sh.incs
    ensures run[i].clients.Keys == run[j].clients.Keys
  {
    hide Next, Inv;
    if i == j {
      GrowsReflexive(run[i].sh.chain);
    } else {
      RunGrows(cfg, run, i, j - 1);
      InvAt(cfg, run, j);
      GrowsTransitive(run[i].sh.chain, run[j - 1].sh.chain, run[j].sh.chain);
    }
  }

  lemma InvsAt(cfg: Config, run: seq<Sys>, e: nat, id: Id)
    requires cfg.Sound() && IsRun(cfg, run) && e < |run| && id in run[e].clients
    ensures SharedInv(cfg, run[e].sh) && ClientInv(cfg, run[e].sh, run[e].clients[id])
  {
    hide SharedInv, ClientInv, LateInv, AppendPending, IsRun;
    InvAt(cfg, run, e);
  }

  // ---------------------------------------------------------------- calls

  /** Client id begins the call at step b of the run and is still in it, or just done, at e. */
  predicate CallSpans(cfg: Config, run: seq<Sys>, b: nat, e: nat, id: Id, call: Call, viaLoad: bool) {
    && b < e < |run| && id in run[b].clients && id in run[b + 1].clients && id in run[e].clients
    && (if viaLoad
        then BeginFresh(cfg, run[b].sh, run[b].clients[id], run[b + 1].sh, run[b + 1].clients[id])
        else BeginRetained(cfg, run[b].sh, run[b].clients[id], run[b + 1].sh, run[b + 1].clients[id]))
    && run[b + 1].clients[id].call == call
    && forall m :: b < m < e ==> id in run[m].clients && !Resting(run[m].clients[id].pc)
  }

  lemma {:induction false} CallRemembered(cfg: Config, run: seq<Sys>, b: nat, e: nat, id: Id, call: Call, viaLoad: bool)
    requires cfg.Sound() && IsRun(cfg, run) && CallSpans(cfg, run, b, e, id, call, viaLoad)
    ensures var cl := run[e].clients[id]; cl.start == run[b].sh && cl.call == call && cl.viaLoad == viaLoad
  {
    hide Next, Inv;
    if e > b + 1 {
      InvAt(cfg, run, e - 1);
      assert id in run[e - 1].clients;
      CallRemembered(cfg, run, b, e - 1, id, call, viaLoad);
      InvAt(cfg, run, e);
    }
  }

  /** An Exists answer lies between two snapshots: membership over the whole store when the call
      began forces true, and true implies membership over the store when it ended. */
  lemma ExistsSandwich(cfg: Config, run: seq<Sys>, b: nat, e: nat, id: Id, x: Item)
    requires cfg.Sound() && IsRun(cfg, run) && CallSpans(cfg, run, b, e, id, ExistsCall(x), true)
    requires run[e].clients[id].pc.Answered?
    ensures cfg.Member(x, run[b].sh.chain) ==> run[e].clients[id].pc.found
    ensures run[e].clients[id].pc.found ==> cfg.Member(x, run[e].sh.chain)
  {
    CallRemembered(cfg, run, b, e, id, ExistsCall(x), true);
    InvsAt(cfg, run, e, id);
    hide Next, IsRun, CallSpans, Grows, HandleOk;
    var cl := run[e].clients[id];
    if cl.pc.found {
      MemberOfPrefix(cfg, x, run[e].sh.chain, |cl.handle|);
    }
  }

  /** An Exists during which no stage changed answers exactly: true if and only if some stage its
      handle knows holds x, be the handle fresh or retained. */
  lemma ExistsOnStillChain(cfg: Config, run: seq<Sys>, b: nat, e: nat, id: Id, x: Item, viaLoad: bool)
    requires cfg.Sound() && IsRun(cfg, run) && CallSpans(cfg, run, b, e, id, ExistsCall(x), viaLoad)
    requires run[e].clients[id].pc.Answered? && run[e].sh.chain == run[b].sh.chain
    ensures |run[e].clients[id].handle| <= |run[b].sh.chain|
    ensures run[e].clients[id].pc.found <==> cfg.Member(x, run[b].sh.chain[..|run[e].clients[id].handle|])
    ensures viaLoad ==> (run[e].clients[id].pc.found <==> cfg.Member(x, run[b].sh.chain))
  {
    CallRemembered(cfg, run, b, e, id, ExistsCall(x), viaLoad);
    InvsAt(cfg, run, e, id);
    hide Next, IsRun, CallSpans, Grows, HandleOk;
    var ch, n := run[b].sh.chain, |run[e].clients[id].handle|;
    if cfg.Member(x, ch[..n]) {
      var i :| 0 <= i < n && cfg.Hit(x, ch[..n][i]);
      assert cfg.Hit(x, ch[i]);
    }
    if viaLoad {
      assert ch[..n] == ch;
    }
  }

  /** Through a retained handle the lower bound covers the stages the handle knows. */
  lemma RetainedExists(cfg: Config, run: seq<Sys>, b: nat, e: nat, id: Id, x: Item, w: nat)
    requires cfg.Sound() && IsRun(cfg, run) && CallSpans(cfg, run, b, e, id, ExistsCall(x), false)
    requires run[e].clients[id].pc.Answered?
    requires w < |run[b].sh.chain| && w < |run[e].clients[id].handle| && cfg.Hit(x, run[b].sh.chain[w])
    ensures run[e].clients[id].pc.found
  {
    CallRemembered(cfg, run, b, e, id, ExistsCall(x), false);
    InvAt(cfg, run, e);
    assert ClientInv(cfg, run[e].sh, run[e].clients[id]);
  }

  /** A retained handle misses nothing as long as it is as long as the chain was when the call
      began: every item acknowledged by then is found. */
  lemma CurrentHandleExists(cfg: Config, run: seq<Sys>, b: nat, e: nat, id: Id, x: Item)
    requires cfg.Sound() && IsRun(cfg, run) && CallSpans(cfg, run, b, e, id, ExistsCall(x), false)
    requires run[e].clients[id].pc.Answered? && x in run[b].sh.acked
    requires |run[e].clients[id].handle| >= |run[b].sh.chain|
    ensures run[e].clients[id].pc.found
  {
    hide Next, IsRun;
    InvAt(cfg, run, b);
    var w :| 0 <= w < |run[b].sh.chain| && cfg.Hit(x, run[b].sh.chain[w]);
    RetainedExists(cfg, run, b, e, id, x, w);
  }

  /** No false negatives: if some Add(x) had returned success by the time an Exists(x) began its
      Load, the answer is true, whatever grew, raced or aborted before or in between. */
  lemma NoFalseNegatives(cfg: Config, run: seq<Sys>, a: nat, adder: Id, b: nat, e: nat, id: Id, x: Item)
    requires cfg.Sound() && IsRun(cfg, run) && CallSpans(cfg, run, b, e, id, ExistsCall(x), true)
    requires a <= b && adder in run[a].clients
    requires run[a].clients[adder].call == AddCall(x) && run[a].clients[adder].pc.Added?
    requires run[e].clients[id].pc.Answered?
    ensures run[e].clients[id].pc.found
  {
    InvAt(cfg, run, a);
    assert ClientInv(cfg, run[a].sh, run[a].clients[adder]);
    assert x in run[a].sh.acked;
    RunGrows(cfg, run, a, b);
    InvAt(cfg, run, b);
    ExistsSandwich(cfg, run, b, e, id, x);
  }

  /** Item conservation: at every moment the fill counters add up to the increments made, and a
      non-atomic Load followed by Items reports a number between those at its start and end. */
  lemma ItemsConserved(cfg: Config, run: seq<Sys>, b: nat, e: nat, id: Id)
    requires cfg.Sound() && IsRun(cfg, run) && CallSpans(cfg, run, b, e, id, StatsCall, true)
    requires run[e].clients[id].pc.Reported?
    ensures TotalFill(run[b].sh.chain) == run[b].sh.incs && TotalFill(run[e].sh.chain) == run[e].sh.incs
    ensures run[b].sh.incs <= run[e].clients[id].pc.items <= run[e].sh.incs
  {
    CallRemembered(cfg, run, b, e, id, StatsCall, true);
    InvAt(cfg, run, b);
    InvAt(cfg, run, e);
    assert ClientInv(cfg, run[e].sh, run[e].clients[id]);
  }

  lemma SubsetSize<T>(a: set<T>, b: set<T>)
    requires a <= b
    ensures |a| <= |b|
  {
    assert b == a + (b - a);
  }

  /** Bounded overshoot: with W clients, a stage that has a successor to grow into is filled at most
      W - 1 beyond its capacity, and one more for each increment that reached the capacity for a call
      cut off before the end of its growth. Calls that fail anywhere else cost nothing. */
  lemma BoundedOvershoot(cfg: Config, run: seq<Sys>, e: nat, i: nat)
    requires cfg.Sound() && IsRun(cfg, run) && e < |run|
    requires i < |run[e].sh.chain| && cfg.plan(i + 1).Ok?
    ensures |run[e].sh.cut| == |run[e].sh.chain|
    ensures run[e].sh.chain[i].fill + 1 <= run[e].sh.chain[i].capacity + |run[e].clients| + run[e].sh.cut[i]
  {
    InvAt(cfg, run, e);
    assert OvershootPaid(run[e].sh, i);
    SubsetSize(run[e].sh.late[i], run[e].clients.Keys);
  }

  /** Growth is not premature: a stage has a successor only once it is full. */
  lemma GrowthNotPremature(cfg: Config, run: seq<Sys>, e: nat, i: nat)
    requires cfg.Sound() && IsRun(cfg, run) && e < |run| && i + 2 <= |run[e].sh.chain|
    ensures run[e].sh.chain[i].fill >= run[e].sh.chain[i].capacity
  {
    InvAt(cfg, run, e);
    assert GrewWhenFull(run[e].sh, i);
  }

  /** Growth is not missed: when no call is in flight and the next stage can be sized, the newest
      stage has room left if and only if no increment filled it for a call cut off before growing. */
  lemma GrowthNotMissed(cfg: Config, run: seq<Sys>, e: nat)
    requires cfg.Sound() && IsRun(cfg, run) && e < |run|
    requires forall id :: id in run[e].clients ==> Resting(run[e].clients[id].pc)
    requires cfg.plan(|run[e].sh.chain|).Ok?
    ensures run[e].sh.chain != [] && |run[e].sh.cut| == |run[e].sh.chain|
    ensures Last(run[e].sh.chain).fill < Last(run[e].sh.chain).capacity <==> Last(run[e].sh.cut) == 0
  {
    hide ClientInv, LateInv, HistoryInv, AdriftInv, IsRun;
    InvAt(cfg, run, e);
    var s := run[e];
    assert GrewWhenFull(s.sh, |s.sh.chain| - 1);
    forall w
      ensures !AboutToAppend(s, w)
    {
    }
  }

  /** Chain agreement: every stored stage has the parameters its index determines, and every
      client's list, however it was loaded, extended or reloaded, is a prefix of the stored chain. */
  lemma ChainAgreement(cfg: Config, run: seq<Sys>, e: nat, id: Id)
    requires cfg.Sound() && IsRun(cfg, run) && e < |run| && id in run[e].clients
    ensures Planned(cfg, run[e].sh.chain)
    ensures HandleOk(run[e].clients[id].handle, run[e].sh.chain)
  {
    InvAt(cfg, run, e);
    assert ClientInv(cfg, run[e].sh, run[e].clients[id]);
  }

  /** Step a of the run appends stage i. */
  predicate AppendsAt(run: seq<Sys>, a: nat, i: nat) {
    a + 1 < |run| && |run[a].sh.chain| == i && |run[a + 1].sh.chain| == i + 1
  }

  lemma {:induction false} AppendAt(cfg: Config, run: seq<Sys>, e: nat, i: nat) returns (a: nat)
    requires cfg.Sound() && IsRun(cfg, run) && e < |run| && 1 <= i < |run[e].sh.chain|
    ensures a < e && AppendsAt(run, a, i)
  {
    hide Next, Inv;
    if e > 0 {
      InvAt(cfg, run, e);
      if |run[e - 1].sh.chain| > i {
        a := AppendAt(cfg, run, e - 1, i);
      } else {
        a := e - 1;
      }
    }
  }

  /** However many clients race for it, each stage index is appended exactly once, and only after
      the stage before it was full. */
  lemma AppendedOnce(cfg: Config, run: seq<Sys>, e: nat, i: nat) returns (a: nat)
    requires cfg.Sound() && IsRun(cfg, run) && e < |run| && 1 <= i < |run[e].sh.chain|
    ensures a < e && AppendsAt(run, a, i)
    ensures forall b: nat :: AppendsAt(run, b, i) ==> b == a
    ensures run[a + 1].sh.chain[i - 1].fill >= run[a + 1].sh.chain[i - 1].capacity
  {
    hide IsRun, Next, Inv;
    a := AppendAt(cfg, run, e, i);
    GrowthNotPremature(cfg, run, a + 1, i - 1);
    forall b: nat | AppendsAt(run, b, i)
      ensures b == a
    {
      if b < a {
        RunGrows(cfg, run, b + 1, a);
      } else if b > a {
        RunGrows(cfg, run, a + 1, b);
      }
    }
  }

  /** While clients move, the count of cut-off increments at stage i goes up only when a client that
      filled stage i is interrupted before it has moved on, and then by one. */
  lemma CutOnlyWhileFilling(cfg: Config, id: Id, s: Sys, s': Sys, i: nat)
    requires StepBy(cfg, id, s, s') && i < |s.sh.cut|
    ensures i < |s'.sh.cut|
    ensures s'.sh.cut[i] == s.sh.cut[i] || s'.sh.cut[i] == s.sh.cut[i] + 1
    ensures s'.sh.cut[i] != s.sh.cut[i] ==> FillingUp(s.clients[id]) && |s.clients[id].handle| == i + 1 && s'.clients[id].pc.Failed?
  {
    hide Enter, Begin, SetBit, Bump, Head, Advance, Pick, ProbeStage;
  }

  /** While they do not, it goes up only when an increment of a call given up on arrives and reaches
      the capacity, and then by one. */
  lemma CutOnlyByLateIncr(cfg: Config, d: Straggler, s: Sys, s': Sys, i: nat)
    requires Drift(cfg, d, s, s') && SharedInv(cfg, s.sh) && i < |s.sh.cut|
    ensures i < |s'.sh.cut| && i < |s'.sh.chain|
    ensures s'.sh.cut[i] == s.sh.cut[i] || s'.sh.cut[i] == s.sh.cut[i] + 1
    ensures s'.sh.cut[i] != s.sh.cut[i] <==> d == LateIncr(i) && s'.sh.chain[i].fill >= s'.sh.chain[i].capacity
    ensures d == LateIncr(i) ==> s'.sh.chain[i].fill == s.sh.chain[i].fill + 1
  {
    hide HistoryInv, AdriftInv;
  }
}
