/** The two models of the code meet: a call of the protocol whose steps nobody interleaves does what
    the Filter class does in one go, through a fresh or a retained handle. */
module ProtocolSolo {
  import opened Base
  import opened Sizing
  import opened Chain
  import opened Persist
  import opened Reference
  import opened Protocol
  import opened ProtocolSafety

  predicate SoloStep(cfg: Config, id: Id, s: Sys, s': Sys) {
    StepBy(cfg, id, s, s') && CallStep(cfg, id, s.sh, s.clients[id], s'.sh, s'.clients[id])
  }

  predicate SoloAt(cfg: Config, run: seq<Sys>, id: Id, m: int)
    requires 0 <= m < |run| - 1
  {
    SoloStep(cfg, id, run[m], run[m + 1])
  }

  /** From b to e only client id moves, and its call is not aborted. */
  predicate Solo(cfg: Config, run: seq<Sys>, b: nat, e: nat, id: Id) {
    e < |run| && forall m :: b <= m < e ==> SoloAt(cfg, run, id, m)
  }

  /** The stage list the call works with: what a Load of the chain gives, or the retained one. */
  function FirstHandle(ch: Stages, cl: Client, viaLoad: bool): seq<Stage> {
    if viaLoad then HandleStages(ch) else cl.handle
  }

  // ---------------------------------------------------------------- Add

  /** The chain once x is written and counted through handle h. */
  function Counted(cfg: Config, ch: Stages, h: seq<Stage>, x: Item): Stages
    requires 0 < |h| <= |ch|
  {
    Bump(AddBitsOf(cfg, ch, |h| - 1, h[|h| - 1], x), |h| - 1)
  }

  function CountedHandle(ch: Stages, h: seq<Stage>): seq<Stage>
    requires 0 < |h| <= |ch|
  {
    h[|h| - 1 := h[|h| - 1].(fill := ch[|h| - 1].fill + 1)]
  }

  /** Part of x's bits are in stage i, the rest are pending. */
  ghost predicate Underway(cfg: Config, ch: Stages, i: nat, st: Stage, x: Item, now: Stages, c: Cursor) {
    && i < |ch| && |now| == |ch| && now == ch[i := ch[i].(bits := now[i].bits)]
    && now[i].bits + Pending(c) == ch[i].bits + Elements(cfg.targets(x, st.m, st.k))
  }

  /** The part of chain t read so far. */
  predicate ReadSoFar(t: Stages, now: Stages, pc: Pc) {
    && now == t
    && (pc.LoadStage? || pc.LoadFill? ==>
          pc.count == |t| && |pc.loaded| <= |t| && pc.loaded == HandleStages(t)[..|pc.loaded|])
    && (pc.LoadFill? ==> |pc.loaded| < |t| && pc.next == HandleStages(t)[|pc.loaded|].(fill := 0))
  }

  ghost predicate AddSolo(cfg: Config, ch: Stages, h: seq<Stage>, x: Item, sh: Shared, cl: Client)
    requires 0 < |h| <= |ch|
  {
    && cl.call == AddCall(x)
    && var ch1 := Counted(cfg, ch, h, x);
       var (r, ch', handle) := AddOf(cfg, ch, h, x);
       match cl.pc
       case Setting(c) => cl.handle == h && Underway(cfg, ch, |h| - 1, h[|h| - 1], x, sh.chain, c)
       case Appending =>
         sh.chain == ch1 && cl.handle == CountedHandle(ch, h) && ch1[|h| - 1].fill >= h[|h| - 1].capacity
       case Added => r.Ok? && sh.chain == ch' && cl.handle == handle
       case Failed => r.Err? && sh.chain == ch' && cl.handle == handle
       case LoadMeta => Loading(cfg, ch, h, x, sh, cl)
       case LoadStage(_, _) => Loading(cfg, ch, h, x, sh, cl)
       case LoadFill(_, _, _) => Loading(cfg, ch, h, x, sh, cl)
       case _ => false
  }

  predicate Loading(cfg: Config, ch: Stages, h: seq<Stage>, x: Item, sh: Shared, cl: Client)
    requires 0 < |h| <= |ch|
  {
    if cl.reloading then
      && ReadSoFar(Counted(cfg, ch, h, x), sh.chain, cl.pc)
      && AddOf(cfg, ch, h, x) == (Ok(()), sh.chain, HandleStages(sh.chain))
    else ReadSoFar(ch, sh.chain, cl.pc) && h == HandleStages(ch)
  }

  lemma EnterUnderway(cfg: Config, ch: Stages, h: seq<Stage>, x: Item, sh: Shared, cl: Client)
    requires 0 < |h| <= |ch| && sh.chain == ch && cl.call == AddCall(x) && cl.handle == h
    requires cl.pc == Enter(cfg, cl.call, h)
    ensures AddSolo(cfg, ch, h, x, sh, cl)
  {
    hide Begin, AddOf, Counted, Pending, Elements;
    var i := |h| - 1;
    BeginPending(cfg.targets(x, h[i].m, h[i].k));
    assert ch == ch[i := ch[i].(bits := ch[i].bits)];
  }

  lemma LoadSolo(cfg: Config, id: Id, ch: Stages, h: seq<Stage>, x: Item, sh: Shared, cl: Client, sh': Shared, cl': Client)
    requires 0 < |h| <= |ch| && AddSolo(cfg, ch, h, x, sh, cl)
    requires ReadMeta(cfg, sh, cl, sh', cl') || ReadStage(cfg, sh, cl, sh', cl') || ReadFill(cfg, sh, cl, sh', cl')
    ensures AddSolo(cfg, ch, h, x, sh', cl')
  {
    hide AddOf, Counted;
    assert ReadSoFar(sh.chain, sh.chain, cl'.pc);
  }

  lemma LoadedSolo(cfg: Config, id: Id, ch: Stages, h: seq<Stage>, x: Item, sh: Shared, cl: Client, sh': Shared, cl': Client)
    requires 0 < |h| <= |ch| && AddSolo(cfg, ch, h, x, sh, cl)
    requires LoadDone(cfg, sh, cl, sh', cl') || ReloadDone(cfg, sh, cl, sh', cl')
    ensures AddSolo(cfg, ch, h, x, sh', cl')
  {
    hide AddOf, Counted, Enter;
    assert cl.pc.loaded == HandleStages(sh.chain);
    if LoadDone(cfg, sh, cl, sh', cl') {
      EnterUnderway(cfg, ch, h, x, sh', cl');
    }
  }

  lemma WriteSolo(cfg: Config, id: Id, ch: Stages, h: seq<Stage>, x: Item, sh: Shared, cl: Client, sh': Shared, cl': Client)
    requires 0 < |h| <= |ch| && AddSolo(cfg, ch, h, x, sh, cl)
    requires PickShard(cfg, sh, cl, sh', cl') || SetOne(cfg, sh, cl, sh', cl')
    ensures AddSolo(cfg, ch, h, x, sh', cl')
  {
    hide AddOf, Counted, Pick, Advance, Head, Pending, Elements;
    var c, i := cl.pc.cursor, |h| - 1;
    if PickShard(cfg, sh, cl, sh', cl') {
      var j :| j in c.groups && cl' == cl.(pc := Setting(Pick(c, j)));
      PickPending(c, j);
    } else {
      AdvancePending(c);
      assert sh'.chain[i].bits + Pending(cl'.pc.cursor) == sh.chain[i].bits + Pending(c);
    }
  }

  lemma WrittenSolo(cfg: Config, ch: Stages, i: nat, st: Stage, x: Item, now: Stages, c: Cursor)
    requires Underway(cfg, ch, i, st, x, now, c) && Finished(c)
    ensures now == AddBitsOf(cfg, ch, i, st, x) && now[i].fill == ch[i].fill
  {
    hide Elements;
    assert Pending(c) == {};
    assert now[i].bits + {} == now[i].bits;
  }

  lemma BumpSolo(cfg: Config, id: Id, ch: Stages, h: seq<Stage>, x: Item, sh: Shared, cl: Client, sh': Shared, cl': Client)
    requires 0 < |h| <= |ch| && AddSolo(cfg, ch, h, x, sh, cl)
    requires BumpFill(cfg, id, sh, cl, sh', cl')
    ensures AddSolo(cfg, ch, h, x, sh', cl')
  {
    hide AddBitsOf, Underway, Finished;
    WrittenSolo(cfg, ch, |h| - 1, h[|h| - 1], x, sh.chain, cl.pc.cursor);
  }

  lemma GrowSolo(cfg: Config, id: Id, ch: Stages, h: seq<Stage>, x: Item, sh: Shared, cl: Client, sh': Shared, cl': Client)
    requires 0 < |h| <= |ch| && AddSolo(cfg, ch, h, x, sh, cl)
    requires Grow(cfg, sh, cl, sh', cl')
    ensures AddSolo(cfg, ch, h, x, sh', cl')
  {
    hide AddBitsOf, HandleStages;
    assert Counted(cfg, ch, h, x)[|h| - 1].fill == ch[|h| - 1].fill + 1 by {
      CountedFill(cfg, ch, h, x);
    }
  }

  lemma CountedFill(cfg: Config, ch: Stages, h: seq<Stage>, x: Item)
    requires 0 < |h| <= |ch|
    ensures |Counted(cfg, ch, h, x)| == |ch| && Counted(cfg, ch, h, x)[|h| - 1].fill == ch[|h| - 1].fill + 1
  {
  }

  lemma AddSoloKept(cfg: Config, id: Id, ch: Stages, h: seq<Stage>, x: Item, sh: Shared, cl: Client, sh': Shared, cl': Client)
    requires 0 < |h| <= |ch| && AddSolo(cfg, ch, h, x, sh, cl) && !Resting(cl.pc)
    requires CallStep(cfg, id, sh, cl, sh', cl')
    ensures AddSolo(cfg, ch, h, x, sh', cl')
  {
    hide AddOf, Counted, Loading, Underway, Append, Enter, Begin, Pick, SetBit, Bump;
    if ReadMeta(cfg, sh, cl, sh', cl') || ReadStage(cfg, sh, cl, sh', cl') || ReadFill(cfg, sh, cl, sh', cl') {
      LoadSolo(cfg, id, ch, h, x, sh, cl, sh', cl');
    } else if LoadDone(cfg, sh, cl, sh', cl') || ReloadDone(cfg, sh, cl, sh', cl') {
      LoadedSolo(cfg, id, ch, h, x, sh, cl, sh', cl');
    } else if PickShard(cfg, sh, cl, sh', cl') || SetOne(cfg, sh, cl, sh', cl') {
      WriteSolo(cfg, id, ch, h, x, sh, cl, sh', cl');
    } else if BumpFill(cfg, id, sh, cl, sh', cl') {
      BumpSolo(cfg, id, ch, h, x, sh, cl, sh', cl');
    } else {
      GrowSolo(cfg, id, ch, h, x, sh, cl, sh', cl');
    }
  }

  lemma AddSoloStarts(cfg: Config, run: seq<Sys>, b: nat, e: nat, id: Id, x: Item, viaLoad: bool)
    requires cfg.Sound() && IsRun(cfg, run) && CallSpans(cfg, run, b, e, id, AddCall(x), viaLoad)
    ensures var ch := run[b].sh.chain;
      var h := FirstHandle(ch, run[b].clients[id], viaLoad);
      0 < |h| <= |ch| && AddSolo(cfg, ch, h, x, run[b + 1].sh, run[b + 1].clients[id])
  {
    hide IsRun, Next, AddOf, Counted, Enter, Underway;
    InvsAt(cfg, run, b, id);
    var ch := run[b].sh.chain;
    if !viaLoad {
      EnterUnderway(cfg, ch, run[b].clients[id].handle, x, run[b + 1].sh, run[b + 1].clients[id]);
    }
  }

  lemma {:induction false} AddSoloAt(cfg: Config, run: seq<Sys>, b: nat, m: nat, e: nat, id: Id, x: Item, viaLoad: bool)
    requires cfg.Sound() && IsRun(cfg, run) && CallSpans(cfg, run, b, e, id, AddCall(x), viaLoad) && Solo(cfg, run, b, e, id)
    requires b < m <= e
    ensures id in run[m].clients
    ensures var ch := run[b].sh.chain;
      var h := FirstHandle(ch, run[b].clients[id], viaLoad);
      0 < |h| <= |ch| && AddSolo(cfg, ch, h, x, run[m].sh, run[m].clients[id])
  {
    hide IsRun, AddSolo, CallStep, FirstHandle, BeginFresh, BeginRetained;
    AddSoloStarts(cfg, run, b, e, id, x, viaLoad);
    if m > b + 1 {
      AddSoloAt(cfg, run, b, m - 1, e, id, x, viaLoad);
      assert SoloAt(cfg, run, id, m - 1);
      var h := FirstHandle(run[b].sh.chain, run[b].clients[id], viaLoad);
      AddSoloKept(cfg, id, run[b].sh.chain, h, x, run[m - 1].sh, run[m - 1].clients[id], run[m].sh, run[m].clients[id]);
    }
  }

  /** An Add nobody interleaves ends with the chain and the handle that Filter.Add produces, and
      succeeds or fails as it does. */
  lemma SoloAddIsAddOf(cfg: Config, run: seq<Sys>, b: nat, e: nat, id: Id, x: Item, viaLoad: bool)
    requires cfg.Sound() && IsRun(cfg, run) && CallSpans(cfg, run, b, e, id, AddCall(x), viaLoad)
    requires Solo(cfg, run, b, e, id) && Resting(run[e].clients[id].pc)
    ensures var ch := run[b].sh.chain;
      var h := FirstHandle(ch, run[b].clients[id], viaLoad);
      && 0 < |h| <= |ch|
      && var (r, ch', handle) := AddOf(cfg, ch, h, x);
         && run[e].sh.chain == ch' && run[e].clients[id].handle == handle
         && run[e].clients[id].pc == if r.Ok? then Added else Failed
  {
    AddSoloAt(cfg, run, b, e, e, id, x, viaLoad);
    hide IsRun, AddOf, CallSpans, Solo, FirstHandle, Counted;
  }

  // ---------------------------------------------------------------- Exists

  predicate ExistsSolo(ch: Stages, h: seq<Stage>, viaLoad: bool, sh: Shared, cl: Client) {
    sh.chain == ch && cl.call.ExistsCall? && (!viaLoad ==> cl.handle == h && (cl.pc.Probing? || cl.pc.Answered?))
  }

  lemma ExistsSoloKept(cfg: Config, id: Id, ch: Stages, h: seq<Stage>, viaLoad: bool, sh: Shared, cl: Client, sh': Shared, cl': Client)
    requires ExistsSolo(ch, h, viaLoad, sh, cl) && !Resting(cl.pc) && ClientInv(cfg, sh, cl)
    requires CallStep(cfg, id, sh, cl, sh', cl')
    ensures ExistsSolo(ch, h, viaLoad, sh', cl')
  {
    hide Head, Advance, Pick, Begin, Covered, Within, NoneNewer, Grows, HandleOk, HistoryInv, LoadedOk, Append;
  }

  lemma {:induction false} ExistsSoloAt(cfg: Config, run: seq<Sys>, b: nat, m: nat, e: nat, id: Id, x: Item, viaLoad: bool)
    requires cfg.Sound() && IsRun(cfg, run) && CallSpans(cfg, run, b, e, id, ExistsCall(x), viaLoad) && Solo(cfg, run, b, e, id)
    requires b < m <= e
    ensures id in run[m].clients
    ensures ExistsSolo(run[b].sh.chain, run[b].clients[id].handle, viaLoad, run[m].sh, run[m].clients[id])
  {
    hide IsRun, CallStep, ClientInv, SharedInv, Begin;
    if m > b + 1 {
      hide ExistsSolo, BeginFresh, BeginRetained;
      ExistsSoloAt(cfg, run, b, m - 1, e, id, x, viaLoad);
      InvsAt(cfg, run, m - 1, id);
      assert SoloAt(cfg, run, id, m - 1);
      ExistsSoloKept(cfg, id, run[b].sh.chain, run[b].clients[id].handle, viaLoad,
        run[m - 1].sh, run[m - 1].clients[id], run[m].sh, run[m].clients[id]);
    }
  }

  /** An Exists nobody interleaves answers as Filter.Exists does: whether some stage the handle knows
      holds x. */
  lemma SoloExistsIsMember(cfg: Config, run: seq<Sys>, b: nat, e: nat, id: Id, x: Item, viaLoad: bool)
    requires cfg.Sound() && IsRun(cfg, run) && CallSpans(cfg, run, b, e, id, ExistsCall(x), viaLoad)
    requires Solo(cfg, run, b, e, id) && run[e].clients[id].pc.Answered?
    ensures var ch := run[b].sh.chain;
      var h := FirstHandle(ch, run[b].clients[id], viaLoad);
      && |h| <= |ch| && run[e].sh.chain == ch
      && (run[e].clients[id].pc.found <==> cfg.Member(x, ch[..|h|]))
  {
    ExistsSoloAt(cfg, run, b, e, e, id, x, viaLoad);
    ExistsOnStillChain(cfg, run, b, e, id, x, viaLoad);
    hide IsRun, CallSpans, Solo;
    var ch := run[b].sh.chain;
    assert ch[..|ch|] == ch;
  }
}
