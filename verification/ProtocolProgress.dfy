/** Progress of the stage-growth protocol: no call in a reachable state is ever stuck, and every step
    of a call brings it nearer its end, whatever the other clients do in between. */
module ProtocolProgress {
  import opened Sizing
  import opened Chain
  import opened Protocol
  import opened ProtocolSafety

  lemma LoadProceeds(cfg: Config, id: Id, sh: Shared, cl: Client) returns (sh': Shared, cl': Client)
    requires cl.pc.LoadMeta? || cl.pc.LoadStage? || cl.pc.LoadFill?
    requires SharedInv(cfg, sh) && ClientInv(cfg, sh, cl)
    ensures CallStep(cfg, id, sh, cl, sh', cl')
  {
    hide SharedInv, Enter;
    sh', cl' := sh, cl;
    match cl.pc
    case LoadMeta =>
      cl' := cl.(pc := LoadStage(|sh.chain|, []));
      assert ReadMeta(cfg, sh, cl, sh', cl');
    case LoadStage(count, loaded) =>
      if |loaded| < count {
        var s := sh.chain[|loaded|];
        cl' := cl.(pc := LoadFill(count, loaded, Stage(|loaded|, s.m, s.k, s.capacity, 0)));
        assert ReadStage(cfg, sh, cl, sh', cl');
      } else if cl.reloading {
        sh' := sh.(acked := sh.acked + {cl.call.item});
        cl' := cl.(handle := loaded, pc := Added);
        assert ReloadDone(cfg, sh, cl, sh', cl');
      } else {
        cl' := cl.(handle := loaded, pc := Enter(cfg, cl.call, loaded));
        EnterIsWork(cfg, cl.call, loaded);
        assert LoadDone(cfg, sh, cl, sh', cl');
      }
    case LoadFill(count, loaded, next) =>
      cl' := cl.(pc := LoadStage(count, loaded + [next.(fill := sh.chain[|loaded|].fill)]));
      assert ReadFill(cfg, sh, cl, sh', cl');
  }

  lemma EnterIsWork(cfg: Config, call: Call, handle: seq<Stage>)
    requires handle != []
    ensures Enter(cfg, call, handle).Setting? || Enter(cfg, call, handle).Probing? || Enter(cfg, call, handle).Reported?
  {
  }

  lemma AddProceeds(cfg: Config, id: Id, sh: Shared, cl: Client) returns (sh': Shared, cl': Client)
    requires cl.pc.Setting? || cl.pc.Appending?
    requires SharedInv(cfg, sh) && ClientInv(cfg, sh, cl)
    ensures CallStep(cfg, id, sh, cl, sh', cl')
  {
    hide HistoryInv, SetBit, Bump, Head, Advance, Pick, Covered;
    sh', cl' := sh, cl;
    var i := |cl.handle| - 1;
    if cl.pc.Appending? {
      sh', cl' := Grown(cfg, sh, cl);
    } else if cl.pc.cursor.batch != [] {
      sh' := sh.(chain := SetBit(sh.chain, i, Head(cl.pc.cursor)));
      cl' := cl.(pc := Setting(Advance(cl.pc.cursor)));
      assert SetOne(cfg, sh, cl, sh', cl');
    } else if cl.pc.cursor.groups != map[] {
      var j :| j in cl.pc.cursor.groups;
      cl' := cl.(pc := Setting(Pick(cl.pc.cursor, j)));
      assert PickShard(cfg, sh, cl, sh', cl');
    } else {
      var newFill := sh.chain[i].fill + 1;
      var full := newFill >= cl.handle[i].capacity;
      var acked := if full then sh.acked else sh.acked + {cl.call.item};
      var late := if full then sh.late[i := sh.late[i] + {id}] else sh.late;
      sh' := Shared(Bump(sh.chain, i), acked, sh.incs + 1, late, sh.cut, sh.adrift);
      cl' := cl.(handle := cl.handle[i := cl.handle[i].(fill := newFill)], pc := if full then Appending else Added);
      assert BumpFill(cfg, id, sh, cl, sh', cl');
    }
  }

  lemma Grown(cfg: Config, sh: Shared, cl: Client) returns (sh': Shared, cl': Client)
    requires cl.pc.Appending? && cl.call.AddCall?
    ensures Grow(cfg, sh, cl, sh', cl')
  {
    var idx := |cl.handle|;
    sh', cl' := sh, cl.(pc := Failed);
    if cfg.plan(idx).Ok? {
      var st := cfg.plan(idx).value;
      var (count, chain) := Append(sh.chain, idx, st);
      if count > idx + 1 {
        sh', cl' := Extended(sh, chain), cl.(pc := LoadMeta, reloading := true);
      } else {
        sh' := Extended(sh, chain).(acked := sh.acked + {cl.call.item});
        cl' := cl.(handle := cl.handle + [st], pc := Added);
      }
    }
  }

  lemma ProbeProceeds(cfg: Config, id: Id, sh: Shared, cl: Client) returns (sh': Shared, cl': Client)
    requires cl.pc.Probing? && SharedInv(cfg, sh) && ClientInv(cfg, sh, cl)
    ensures CallStep(cfg, id, sh, cl, sh', cl')
  {
    hide SharedInv, HistoryInv, Head, Advance, Pick, Covered, Within, NoneNewer, ProbeStage;
    sh', cl' := sh, cl;
    var i, cursor := cl.pc.stage, cl.pc.cursor;
    if cursor.batch != [] {
      cl' := cl.(pc := Probing(i, Advance(cursor), cl.pc.hit && Head(cursor) in sh.chain[i].bits));
      assert ProbeOne(cfg, sh, cl, sh', cl');
    } else if !cl.pc.hit {
      cl' := cl.(pc := if i == 0 then Answered(false) else ProbeStage(cfg, cl.call.item, cl.handle, i - 1));
      assert ProbeNext(cfg, sh, cl, sh', cl');
    } else if cursor.groups != map[] {
      var j :| j in cursor.groups;
      cl' := cl.(pc := Probing(i, Pick(cursor, j), true));
      assert ProbePick(cfg, sh, cl, sh', cl');
    } else {
      cl' := cl.(pc := Answered(true));
      assert ProbeFound(cfg, sh, cl, sh', cl');
    }
  }

  lemma SomeStep(cfg: Config, id: Id, sh: Shared, cl: Client) returns (sh': Shared, cl': Client)
    requires SharedInv(cfg, sh) && ClientInv(cfg, sh, cl) && !Resting(cl.pc)
    ensures CallStep(cfg, id, sh, cl, sh', cl')
  {
    hide CallStep, SharedInv, ClientInv;
    if cl.pc.Setting? || cl.pc.Appending? {
      sh', cl' := AddProceeds(cfg, id, sh, cl);
    } else if cl.pc.Probing? {
      sh', cl' := ProbeProceeds(cfg, id, sh, cl);
    } else {
      sh', cl' := LoadProceeds(cfg, id, sh, cl);
    }
  }

  /** In every reachable state a client in the middle of a call can take its next step at once: no
      guard of the model blocks anyone, and nobody waits for anybody. */
  lemma NeverStuck(cfg: Config, run: seq<Sys>, e: nat, id: Id)
    requires cfg.Sound() && IsRun(cfg, run) && e < |run|
    requires id in run[e].clients && !Resting(run[e].clients[id].pc)
    ensures exists s' :: StepBy(cfg, id, run[e], s') && CallStep(cfg, id, run[e].sh, run[e].clients[id], s'.sh, s'.clients[id])
  {
    hide CallStep, SharedInv, ClientInv, IsRun;
    InvsAt(cfg, run, e, id);
    var s := run[e];
    var sh', cl' := SomeStep(cfg, id, s.sh, s.clients[id]);
    var s' := Sys(sh', s.clients[id := cl']);
    assert StepBy(cfg, id, s, s');
  }

  // ---------------------------------------------------------------- every call ends

  /** How far a call is from its end: its phase, then the stages, shard groups and bits to go. */
  datatype Rank = Rank(phase: nat, stages: nat, groups: nat, bits: nat)

  predicate Below(a: Rank, b: Rank) {
    || a.phase < b.phase
    || (a.phase == b.phase && a.stages < b.stages)
    || (a.phase == b.phase && a.stages == b.stages && a.groups < b.groups)
    || (a.phase == b.phase && a.stages == b.stages && a.groups == b.groups && a.bits < b.bits)
  }

  function Monus(a: nat, b: nat): nat {
    if a < b then 0 else a - b
  }

  function RankOf(cl: Client): Rank {
    match cl.pc
    case LoadMeta => Rank(if cl.reloading then 2 else 6, 0, 0, 0)
    case LoadStage(count, loaded) => Rank(if cl.reloading then 1 else 5, Monus(count, |loaded|), 0, 1)
    case LoadFill(count, loaded, _) => Rank(if cl.reloading then 1 else 5, Monus(count, |loaded|), 0, 0)
    case Setting(cursor) => Rank(4, 0, |cursor.groups|, |cursor.batch|)
    case Probing(stage, cursor, _) => Rank(4, stage, |cursor.groups|, |cursor.batch|)
    case Appending => Rank(3, 0, 0, 0)
    case _ => Rank(0, 0, 0, 0)
  }

  lemma FewerGroups(c: Cursor, j: nat)
    requires j in c.groups
    ensures |Pick(c, j).groups| < |c.groups|
  {
    assert Pick(c, j).groups.Keys == c.groups.Keys - {j};
  }

  lemma LoadRank(cfg: Config, sh: Shared, cl: Client, sh': Shared, cl': Client)
    requires cl.pc.LoadFill? ==> |cl.pc.loaded| < cl.pc.count
    requires ReadMeta(cfg, sh, cl, sh', cl') || ReadStage(cfg, sh, cl, sh', cl') || ReadFill(cfg, sh, cl, sh', cl')
      || LoadDone(cfg, sh, cl, sh', cl') || ReloadDone(cfg, sh, cl, sh', cl')
    ensures Below(RankOf(cl'), RankOf(cl))
  {
    hide Begin;
  }

  lemma AddRank(cfg: Config, id: Id, sh: Shared, cl: Client, sh': Shared, cl': Client)
    requires PickShard(cfg, sh, cl, sh', cl') || SetOne(cfg, sh, cl, sh', cl')
      || BumpFill(cfg, id, sh, cl, sh', cl') || Grow(cfg, sh, cl, sh', cl')
    ensures Below(RankOf(cl'), RankOf(cl))
  {
    hide SetBit, Bump, Head, Append, Pick;
    if PickShard(cfg, sh, cl, sh', cl') {
      var j :| j in cl.pc.cursor.groups && cl' == cl.(pc := Setting(Pick(cl.pc.cursor, j)));
      FewerGroups(cl.pc.cursor, j);
    } else if SetOne(cfg, sh, cl, sh', cl') {
      hide PickShard, BumpFill, Grow;
      assert |Advance(cl.pc.cursor).batch| < |cl.pc.cursor.batch|;
    } else if BumpFill(cfg, id, sh, cl, sh', cl') {
      hide PickShard, SetOne, Grow;
    } else {
      hide PickShard, SetOne, BumpFill;
    }
  }

  lemma ProbeRank(cfg: Config, sh: Shared, cl: Client, sh': Shared, cl': Client)
    requires ProbePick(cfg, sh, cl, sh', cl') || ProbeOne(cfg, sh, cl, sh', cl')
      || ProbeNext(cfg, sh, cl, sh', cl') || ProbeFound(cfg, sh, cl, sh', cl')
    ensures Below(RankOf(cl'), RankOf(cl))
  {
    hide Head, Begin, Pick;
    if ProbePick(cfg, sh, cl, sh', cl') {
      var j :| j in cl.pc.cursor.groups && cl' == cl.(pc := cl.pc.(cursor := Pick(cl.pc.cursor, j)));
      FewerGroups(cl.pc.cursor, j);
    } else if ProbeOne(cfg, sh, cl, sh', cl') {
      hide ProbePick, ProbeNext, ProbeFound;
      assert |Advance(cl.pc.cursor).batch| < |cl.pc.cursor.batch|;
    } else if ProbeNext(cfg, sh, cl, sh', cl') {
      hide ProbePick, ProbeOne, ProbeFound;
    }
  }

  lemma AbortRank(cfg: Config, id: Id, sh: Shared, cl: Client, sh': Shared, cl': Client)
    requires Abort(cfg, id, sh, cl, sh', cl')
    ensures Below(RankOf(cl'), RankOf(cl))
  {
  }

  /** Every step of a call strictly lowers its rank, so no call goes on for ever, however often
      other clients grow the chain under it; a lost race costs one reload and no more. */
  lemma CallsAdvance(cfg: Config, run: seq<Sys>, e: nat, id: Id)
    requires cfg.Sound() && IsRun(cfg, run) && e + 1 < |run| && StepBy(cfg, id, run[e], run[e + 1])
    requires !Resting(run[e].clients[id].pc)
    ensures Below(RankOf(run[e + 1].clients[id]), RankOf(run[e].clients[id]))
  {
    InvsAt(cfg, run, e, id);
    var sh, cl, sh', cl' := run[e].sh, run[e].clients[id], run[e + 1].sh, run[e + 1].clients[id];
    assert cl.pc.LoadFill? ==> |cl.pc.loaded| < cl.pc.count;
    assert !BeginFresh(cfg, sh, cl, sh', cl') && !BeginRetained(cfg, sh, cl, sh', cl');
    hide *;
    RankDrops(cfg, id, sh, cl, sh', cl');
  }

  lemma RankDrops(cfg: Config, id: Id, sh: Shared, cl: Client, sh': Shared, cl': Client)
    requires cl.pc.LoadFill? ==> |cl.pc.loaded| < cl.pc.count
    requires ClientStep(cfg, id, sh, cl, sh', cl') && !BeginFresh(cfg, sh, cl, sh', cl') && !BeginRetained(cfg, sh, cl, sh', cl')
    ensures Below(RankOf(cl'), RankOf(cl))
  {
    hide BeginFresh, BeginRetained, ReadMeta, ReadStage, ReadFill, LoadDone, ReloadDone, PickShard, SetOne, BumpFill, Grow;
    hide ProbePick, ProbeOne, ProbeNext, ProbeFound, Abort, RankOf, Below;
    if Abort(cfg, id, sh, cl, sh', cl') {
      AbortRank(cfg, id, sh, cl, sh', cl');
    } else if ReadMeta(cfg, sh, cl, sh', cl') || ReadStage(cfg, sh, cl, sh', cl') || ReadFill(cfg, sh, cl, sh', cl')
      || LoadDone(cfg, sh, cl, sh', cl') || ReloadDone(cfg, sh, cl, sh', cl')
    {
      LoadRank(cfg, sh, cl, sh', cl');
    } else if PickShard(cfg, sh, cl, sh', cl') || SetOne(cfg, sh, cl, sh', cl')
      || BumpFill(cfg, id, sh, cl, sh', cl') || Grow(cfg, sh, cl, sh', cl')
    {
      AddRank(cfg, id, sh, cl, sh', cl');
    } else {
      ProbeRank(cfg, sh, cl, sh', cl');
    }
  }
}
