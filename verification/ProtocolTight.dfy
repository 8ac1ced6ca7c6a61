/** The overshoot bound of ProtocolSafety is exact: for any number of clients and of cut-off calls
    there is a run that fills a stage to precisely that. */
module ProtocolTight {
  import opened Chain
  import opened Protocol

  ghost predicate EndsIn(cfg: Config, run: seq<Sys>, s: Sys) {
    IsRun(cfg, run) && run[|run| - 1] == s
  }

  ghost predicate Reachable(cfg: Config, s: Sys) {
    exists run :: EndsIn(cfg, run, s)
  }

  /** One step of one client, at the end of a run. */
  lemma Act(cfg: Config, s: Sys, id: Id, sh': Shared, cl': Client) returns (s': Sys)
    requires Reachable(cfg, s) && id in s.clients && ClientStep(cfg, id, s.sh, s.clients[id], sh', cl')
    ensures Reachable(cfg, s') && s' == Sys(sh', s.clients[id := cl'])
  {
    hide ClientStep, IsRun;
    s' := Sys(sh', s.clients[id := cl']);
    assert StepBy(cfg, id, s, s');
    var run :| EndsIn(cfg, run, s);
    RunSnoc(cfg, run, s');
    assert EndsIn(cfg, run + [s'], s');
  }

  // ---------------------------------------------------------------- one Add, up to its increment

  /** Stage 0 is the only one, and the client holds it. */
  predicate Alone(sh: Shared, cl: Client) {
    && |sh.chain| == 1 && |sh.late| == 1 && |sh.cut| == 1
    && |cl.handle| == 1 && cl.handle[0].capacity == sh.chain[0].capacity
  }

  /** Nothing but the bits of stage 0 may differ. */
  predicate OnlyBits(sh: Shared, sh': Shared) {
    && |sh.chain| == 1 && |sh'.chain| == 1 && sh' == sh.(chain := sh'.chain)
    && sh'.chain[0] == sh.chain[0].(bits := sh'.chain[0].bits)
  }

  /** The next shard group, or the next bit. */
  lemma WriteOne(cfg: Config, s: Sys, id: Id) returns (s': Sys, c': Cursor)
    requires Reachable(cfg, s) && id in s.clients && Alone(s.sh, s.clients[id])
    requires s.clients[id].pc.Setting? && !Finished(s.clients[id].pc.cursor)
    ensures Reachable(cfg, s') && OnlyBits(s.sh, s'.sh)
    ensures s'.clients == s.clients[id := s.clients[id].(pc := Setting(c'))]
    ensures var c := s.clients[id].pc.cursor;
      |c'.groups| < |c.groups| || (c'.groups == c.groups && |c'.batch| < |c.batch|)
  {
    hide Head, Reachable;
    var sh, cl := s.sh, s.clients[id];
    var c, sh' := cl.pc.cursor, sh;
    if c.batch != [] {
      sh', c' := sh.(chain := SetBit(sh.chain, 0, Head(c))), Advance(c);
      assert SetOne(cfg, sh, cl, sh', cl.(pc := Setting(c')));
    } else {
      var j :| j in c.groups;
      c' := Pick(c, j);
      assert c'.groups.Keys == c.groups.Keys - {j};
      assert PickShard(cfg, sh, cl, sh, cl.(pc := Setting(c')));
    }
    hide SetOne, PickShard;
    s' := Act(cfg, s, id, sh', cl.(pc := Setting(c')));
  }

  lemma {:induction false} WriteOut(cfg: Config, s: Sys, id: Id) returns (s': Sys, c': Cursor)
    requires Reachable(cfg, s) && id in s.clients && Alone(s.sh, s.clients[id]) && s.clients[id].pc.Setting?
    ensures Reachable(cfg, s') && OnlyBits(s.sh, s'.sh) && Finished(c')
    ensures s'.clients == s.clients[id := s.clients[id].(pc := Setting(c'))]
    decreases |s.clients[id].pc.cursor.groups|, |s.clients[id].pc.cursor.batch|
  {
    hide Reachable, Finished;
    s', c' := s, s.clients[id].pc.cursor;
    if !Finished(c') {
      s', c' := WriteOne(cfg, s, id);
      s', c' := WriteOut(cfg, s', id);
    }
  }

  /** One more item counted on behalf of client id, which moves alone. */
  predicate CountedBy(s: Sys, s': Sys, id: Id) {
    && id in s'.clients && s'.clients == s.clients[id := s'.clients[id]] && Alone(s'.sh, s'.clients[id])
    && |s.sh.chain| == 1 && s'.sh.cut == s.sh.cut && s'.sh.adrift == s.sh.adrift
    && s'.sh.chain[0].capacity == s.sh.chain[0].capacity && s'.sh.chain[0].fill == s.sh.chain[0].fill + 1
    && s'.clients[id].pc == if s'.sh.chain[0].fill >= s'.sh.chain[0].capacity then Appending else Added
  }

  lemma Increment(cfg: Config, s: Sys, id: Id) returns (s': Sys)
    requires Reachable(cfg, s) && id in s.clients && Alone(s.sh, s.clients[id])
    requires var cl := s.clients[id]; cl.pc.Setting? && Finished(cl.pc.cursor) && cl.call.AddCall?
    ensures Reachable(cfg, s') && CountedBy(s, s', id)
  {
    hide Reachable;
    var sh, cl := s.sh, s.clients[id];
    var newFill := sh.chain[0].fill + 1;
    var full := newFill >= cl.handle[0].capacity;
    var acked := if full then sh.acked else sh.acked + {cl.call.item};
    var late := if full then sh.late[0 := sh.late[0] + {id}] else sh.late;
    var sh' := Shared(Bump(sh.chain, 0), acked, sh.incs + 1, late, sh.cut, sh.adrift);
    var cl' := cl.(handle := cl.handle[0 := cl.handle[0].(fill := newFill)], pc := if full then Appending else Added);
    assert BumpFill(cfg, id, sh, cl, sh', cl');
    s' := Act(cfg, s, id, sh', cl');
  }

  /** A resting client adds an item, up to and including its increment. */
  lemma AddOne(cfg: Config, s: Sys, id: Id) returns (s': Sys)
    requires Reachable(cfg, s) && id in s.clients && Alone(s.sh, s.clients[id]) && Resting(s.clients[id].pc)
    ensures Reachable(cfg, s') && CountedBy(s, s', id)
  {
    hide Reachable, Begin;
    var cl, call := s.clients[id], AddCall([]);
    var cl' := Client(cl.handle, Enter(cfg, call, cl.handle), call, s.sh, false, false);
    assert BeginRetained(cfg, s.sh, cl, s.sh, cl');
    hide BeginRetained, Finished;
    var s1 := Act(cfg, s, id, s.sh, cl');
    var s2, c := WriteOut(cfg, s1, id);
    s' := Increment(cfg, s2, id);
  }

  // ---------------------------------------------------------------- the crowd

  function Ids(w: nat): (ids: set<Id>)
    ensures |ids| == w && forall id :: id in ids <==> 0 <= id < w
  {
    if w == 0 then {} else Ids(w - 1) + {w - 1}
  }

  /** w clients hold stage 0, which has taken fill items; the first `ahead` of them are about to grow
      it, the others rest, and cut calls were cut off. */
  predicate Crowded(cfg: Config, s: Sys, w: nat, ahead: nat, fill: nat, cut: nat) {
    && cfg.plan(0).Ok? && s.clients.Keys == Ids(w)
    && |s.sh.chain| == 1 && s.sh.chain[0].capacity == cfg.plan(0).value.capacity && s.sh.chain[0].fill == fill
    && s.sh.cut == [cut] && s.sh.adrift == multiset{}
    && forall id :: id in s.clients ==>
         Alone(s.sh, s.clients[id]) && if id < ahead then s.clients[id].pc.Appending? else Resting(s.clients[id].pc)
  }

  lemma AtFirst(cfg: Config, w: nat) returns (s: Sys)
    requires cfg.plan(0).Ok?
    ensures Reachable(cfg, s) && Crowded(cfg, s, w, 0, 0, 0)
  {
    hide IsRun;
    var st := cfg.plan(0).value;
    var sh := Shared([Fresh(st)], {}, 0, [{}], [0], multiset{});
    s := Sys(sh, map id | id in Ids(w) :: Client([st], Idle, StatsCall, sh, false, false));
    InitIsRun(cfg, s);
    assert EndsIn(cfg, [s], s);
  }

  /** The first client that rests adds an item. */
  lemma OneMore(cfg: Config, s: Sys, w: nat, ahead: nat, fill: nat, cut: nat) returns (s': Sys)
    requires Reachable(cfg, s) && Crowded(cfg, s, w, ahead, fill, cut) && ahead < w
    requires ahead == 0 || fill + 1 >= cfg.plan(0).value.capacity
    ensures Reachable(cfg, s')
    ensures Crowded(cfg, s', w, if fill + 1 >= cfg.plan(0).value.capacity then ahead + 1 else ahead, fill + 1, cut)
  {
    hide Reachable;
    s' := AddOne(cfg, s, ahead);
  }

  /** The only client whose increment filled the stage is cut off. */
  lemma CutOff(cfg: Config, s: Sys, w: nat, fill: nat, cut: nat) returns (s': Sys)
    requires Reachable(cfg, s) && Crowded(cfg, s, w, 1, fill, cut) && 1 <= w
    ensures Reachable(cfg, s') && Crowded(cfg, s', w, 0, fill, cut + 1)
  {
    hide Reachable;
    var sh, cl := s.sh, s.clients[0];
    var sh' := sh.(late := [sh.late[0] - {0}], cut := [cut + 1]);
    assert Abort(cfg, 0, sh, cl, sh', cl.(pc := Failed));
    hide Abort;
    s' := Act(cfg, s, 0, sh', cl.(pc := Failed));
  }

  function Beyond(cfg: Config, fill: nat): nat
    requires cfg.plan(0).Ok?
  {
    if fill < cfg.plan(0).value.capacity then 0 else fill + 1 - cfg.plan(0).value.capacity
  }

  /** Client 0 fills the stage one by one, and is cut off each time it should have grown it. */
  lemma {:induction false} FilledTo(cfg: Config, w: nat, fill: nat) returns (s: Sys)
    requires cfg.Sound() && cfg.plan(0).Ok? && w >= 1
    ensures Reachable(cfg, s) && Crowded(cfg, s, w, 0, fill, Beyond(cfg, fill))
  {
    hide Reachable, Crowded;
    if fill == 0 {
      s := AtFirst(cfg, w);
    } else {
      s := FilledTo(cfg, w, fill - 1);
      s := OneMore(cfg, s, w, 0, fill - 1, Beyond(cfg, fill - 1));
      if fill >= cfg.plan(0).value.capacity {
        s := CutOff(cfg, s, w, fill, Beyond(cfg, fill - 1));
      }
    }
  }

  /** Then every client in turn adds one item and is overtaken before it grows the stage. */
  lemma {:induction false} Ahead(cfg: Config, w: nat, ahead: nat, cut: nat) returns (s: Sys)
    requires cfg.Sound() && cfg.plan(0).Ok? && 1 <= w && ahead <= w
    ensures Reachable(cfg, s) && Crowded(cfg, s, w, ahead, cfg.plan(0).value.capacity - 1 + cut + ahead, cut)
  {
    hide Reachable, Crowded;
    if ahead == 0 {
      s := FilledTo(cfg, w, cfg.plan(0).value.capacity - 1 + cut);
    } else {
      s := Ahead(cfg, w, ahead - 1, cut);
      s := OneMore(cfg, s, w, ahead - 1, cfg.plan(0).value.capacity - 1 + cut + ahead - 1, cut);
    }
  }

  /** The bound is reached: for any w clients and any number of cut-off calls, some run fills a stage
      to w - 1 beyond its capacity and one more for each of those calls. */
  lemma OvershootReached(cfg: Config, w: nat, cut: nat) returns (run: seq<Sys>, s: Sys)
    requires cfg.Sound() && cfg.plan(0).Ok? && w >= 1
    ensures IsRun(cfg, run) && s == run[|run| - 1]
    ensures |s.clients| == w && |s.sh.chain| == 1 && s.sh.cut == [cut]
    ensures s.sh.chain[0].fill + 1 == s.sh.chain[0].capacity + w + cut
  {
    hide IsRun;
    s := Ahead(cfg, w, w, cut);
    run :| EndsIn(cfg, run, s);
    assert |s.clients| == |s.clients.Keys|;
  }
}
