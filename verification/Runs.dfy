/** Whole runs of the service: every finite sequence of calls over any number of filters. */
module Runs {
  import opened Base
  import opened Runtime
  import opened Keys
  import opened Store
  import opened Sizing
  import opened Chain
  import opened Layout
  import opened Persist
  import opened Reference
  import opened Engine
  import opened Service
  import Estimate

  // ---------------------------------------------------------------- the reference run

  datatype Outcome = Outcome(replies: seq<Reply>, cat: Catalogue)

  /** The machine types of a call's arguments. */
  ghost predicate WellTyped(env: Env, names: Names, call: Call) {
    call.name in names.all && (call.Create? ==>
      call.n < TWO64 && env.isFloat(call.p) && Allows(env, names, call.name, call.n, call.p))
  }

  /** A run shorter than the range of an int64 counter. */
  ghost predicate WellTypedRun(env: Env, names: Names, calls: seq<Call>) {
    |calls| < TWO63 && forall i :: 0 <= i < |calls| ==> WellTyped(env, names, calls[i])
  }

  ghost predicate AtMost(cat: Catalogue, bound: nat) {
    forall name :: name in cat ==> |cat[name].items| <= bound
  }

  lemma ServeStays(env: Env, names: Names, cat: Catalogue, call: Call, bound: nat)
    requires env.Sound() && ValidCatalogue(env, cat) && AtMost(cat, bound) && bound + 1 < TWO63
    requires WellTyped(env, names, call)
    ensures Admissible(env, names, cat, call)
    ensures var cat' := Serve(env, cat, call).1; ValidCatalogue(env, cat') && AtMost(cat', bound + 1)
  {
    hide ValidCatalogue, ValidEntry, ConfigOf, AddResult, MaybeAdded, StatsOf, ComputeStage;
    ServeKeepsValid(env, names, cat, call);
  }

  /** Replies and final catalogue of a run that starts with no filters. */
  ghost function RunOf(env: Env, names: Names, calls: seq<Call>): (o: Outcome)
    requires env.Sound() && WellTypedRun(env, names, calls)
    ensures ValidCatalogue(env, o.cat) && AtMost(o.cat, |calls|) && |o.replies| == |calls|
  {
    if calls == [] then Outcome([], map[])
    else
      var front, last := calls[..|calls| - 1], calls[|calls| - 1];
      var before := RunOf(env, names, front);
      ServeStays(env, names, before.cat, last, |front|);
      var (reply, cat) := Serve(env, before.cat, last);
      Outcome(before.replies + [reply], cat)
  }

  lemma LastCall(env: Env, names: Names, calls: seq<Call>)
    requires env.Sound() && WellTypedRun(env, names, calls) && calls != []
    ensures var front, last := calls[..|calls| - 1], calls[|calls| - 1];
      var before, after := RunOf(env, names, front), RunOf(env, names, calls);
      && (after.replies[|front|], after.cat) == Serve(env, before.cat, last)
      && after.replies[..|front|] == before.replies
  {
  }

  /** Refinement over whole runs: the service over a string-keyed store answers every sequence of
      calls as the catalogue does, and its registry ends up listing exactly the live names. */
  method ServeAll(env: Env, store: MemStore, ghost names: Names, calls: seq<Call>)
    returns (replies: seq<Reply>, live: seq<string>)
    requires env.Sound() && Family(names) && WellTypedRun(env, names, calls) && store.State() == EMPTY_STORE
    modifies store
    ensures var o := RunOf(env, names, calls);
      && replies == o.replies
      && Elements(live) == o.cat.Keys && |live| == |o.cat|
      && Rep(env, names, store.State(), WorldOf(env, o.cat))
  {
    EmptyRep(env, names);
    assert WorldOf(env, map[]) == map[];
    var service := new FilterService(env, store, names, map[]);
    hide Rep, Family, Serve, ValidCatalogue, WorldOf;
    replies := [];
    for i := 0 to |calls|
      invariant service.Valid() && service.env == env && service.store == store && service.names == names
      invariant fresh(service)
      invariant Outcome(replies, service.cat) == RunOf(env, names, calls[..i])
    {
      assert calls[..i + 1][..i] == calls[..i];
      ServeStays(env, names, service.cat, calls[i], i);
      var reply := service.Handle(calls[i]);
      replies := replies + [reply];
    }
    assert calls[..|calls|] == calls;
    live := service.ListFilters();
  }

  lemma {:induction false} PrefixOfRun(env: Env, names: Names, calls: seq<Call>, i: nat)
    requires env.Sound() && WellTypedRun(env, names, calls) && i <= |calls|
    ensures RunOf(env, names, calls).replies[..i] == RunOf(env, names, calls[..i]).replies
  {
    if i == |calls| {
      assert calls[..i] == calls;
    } else {
      var front := calls[..|calls| - 1];
      PrefixOfRun(env, names, front, i);
      assert front[..i] == calls[..i];
      LastCall(env, names, calls);
      hide RunOf;
      assert RunOf(env, names, calls).replies[..i] == RunOf(env, names, calls).replies[..|front|][..i];
    }
  }

  /** The catalogue when call i of a run begins. */
  ghost function CatAt(env: Env, names: Names, calls: seq<Call>, i: nat): (cat: Catalogue)
    requires env.Sound() && WellTypedRun(env, names, calls) && i <= |calls|
    ensures ValidCatalogue(env, cat)
  {
    RunOf(env, names, calls[..i]).cat
  }

  lemma ReplyAt(env: Env, names: Names, calls: seq<Call>, i: nat)
    requires env.Sound() && WellTypedRun(env, names, calls) && i < |calls|
    ensures (RunOf(env, names, calls).replies[i], CatAt(env, names, calls, i + 1)) == Serve(env, CatAt(env, names, calls, i), calls[i])
  {
    hide RunOf, Serve, ValidCatalogue;
    PrefixOfRun(env, names, calls, i + 1);
    var upTo := calls[..i + 1];
    assert upTo[..|upTo| - 1] == calls[..i] && upTo[|upTo| - 1] == calls[i];
    hide WellTypedRun;
    LastCall(env, names, upTo);
    assert RunOf(env, names, calls).replies[i] == RunOf(env, names, calls).replies[..i + 1][i];
  }

  // ---------------------------------------------------------------- tenant isolation

  /** A call's reply and its effect depend only on its own filter. */
  lemma ServeLocal(env: Env, cat1: Catalogue, cat2: Catalogue, call: Call)
    requires env.Sound() && ValidCatalogue(env, cat1) && ValidCatalogue(env, cat2)
    requires Lookup(cat1, call.name) == Lookup(cat2, call.name)
    ensures Serve(env, cat1, call).0 == Serve(env, cat2, call).0
    ensures Lookup(Serve(env, cat1, call).1, call.name) == Lookup(Serve(env, cat2, call).1, call.name)
  {
    hide ValidEntry, AddResult, MaybeAdded, StatsOf, CreateError, ConfigOf;
  }

  lemma ServeElsewhere(env: Env, cat: Catalogue, call: Call, other: string)
    requires env.Sound() && ValidCatalogue(env, cat) && other != call.name
    ensures Lookup(Serve(env, cat, call).1, other) == Lookup(cat, other)
  {
    hide ValidEntry, AddResult, MaybeAdded, StatsOf, CreateError, ConfigOf;
  }

  function CallsOn(calls: seq<Call>, name: string): (r: seq<Call>)
    ensures |r| <= |calls| && forall c :: c in r ==> c in calls && c.name == name
  {
    if calls == [] then []
    else
      var front, last := calls[..|calls| - 1], calls[|calls| - 1];
      CallsOn(front, name) + if last.name == name then [last] else []
  }

  function RepliesOn(calls: seq<Call>, replies: seq<Reply>, name: string): seq<Reply>
    requires |calls| == |replies|
  {
    if calls == [] then []
    else
      var i := |calls| - 1;
      RepliesOn(calls[..i], replies[..i], name) + if calls[i].name == name then [replies[i]] else []
  }

  lemma CallsOnWellTyped(env: Env, names: Names, calls: seq<Call>, name: string)
    requires WellTypedRun(env, names, calls)
    ensures WellTypedRun(env, names, CallsOn(calls, name))
  {
    var on := CallsOn(calls, name);
    forall i | 0 <= i < |on|
      ensures WellTyped(env, names, on[i])
    {
      assert on[i] in on;
    }
  }

  /** Tenant isolation over whole runs: what one filter's callers see, and what is kept of that
      filter, is the same as if nobody had ever called any other filter. */
  lemma {:induction false} TenantIsolation(env: Env, names: Names, calls: seq<Call>, name: string)
    requires env.Sound() && WellTypedRun(env, names, calls)
    ensures WellTypedRun(env, names, CallsOn(calls, name))
    ensures var all, alone := RunOf(env, names, calls), RunOf(env, names, CallsOn(calls, name));
      && RepliesOn(calls, all.replies, name) == alone.replies
      && Lookup(all.cat, name) == Lookup(alone.cat, name)
  {
    CallsOnWellTyped(env, names, calls, name);
    if calls != [] {
      var front, last := calls[..|calls| - 1], calls[|calls| - 1];
      TenantIsolation(env, names, front, name);
      LastCall(env, names, calls);
      var on, onFront := CallsOn(calls, name), CallsOn(front, name);
      hide RunOf, Serve, WellTypedRun, ValidCatalogue;
      var before := RunOf(env, names, front);
      if last.name == name {
        assert on[..|on| - 1] == onFront;
        LastCall(env, names, on);
        var aloneBefore := RunOf(env, names, onFront);
        ServeLocal(env, before.cat, aloneBefore.cat, last);
        var alone := RunOf(env, names, on).replies;
        assert alone == alone[..|on| - 1] + [alone[|on| - 1]];
      } else {
        assert on == onFront;
        ServeElsewhere(env, before.cat, last, name);
      }
    }
  }

  // ---------------------------------------------------------------- no false negatives

  predicate Recorded(cat: Catalogue, name: string, x: Item) {
    name in cat && x in cat[name].items
  }

  /** An item recorded under a live name is found. */
  lemma RecordedFound(env: Env, cat: Catalogue, name: string, x: Item)
    requires env.Sound() && ValidCatalogue(env, cat) && Recorded(cat, name, x)
    ensures Serve(env, cat, Call.Exists(name, x)) == (Found(true), cat)
  {
    assert ValidEntry(env, cat[name]);
    var cfg := ConfigOf(env, cat[name].n, cat[name].p);
    AddedIsFound(cfg, cat[name].items, x);
    MembershipExact(cfg, cat[name].items, x);
    hide ConfigOf, MaybeAdded, ValidEntry, ValidCatalogue;
  }

  lemma RecordedStays(env: Env, cat: Catalogue, call: Call, name: string, x: Item)
    requires env.Sound() && ValidCatalogue(env, cat) && Recorded(cat, name, x)
    requires !(call.Delete? && call.name == name)
    ensures Recorded(Serve(env, cat, call).1, name, x)
  {
    hide ValidEntry, AddResult, MaybeAdded, StatsOf, ConfigOf;
  }

  lemma {:induction false} RecordedOverRun(env: Env, names: Names, calls: seq<Call>, i: nat, j: nat, name: string, x: Item)
    requires env.Sound() && WellTypedRun(env, names, calls) && i <= j <= |calls|
    requires Recorded(CatAt(env, names, calls, i), name, x)
    requires forall m :: i <= m < j ==> calls[m] != Call.Delete(name)
    ensures Recorded(CatAt(env, names, calls, j), name, x)
  {
    hide CatAt, RunOf, Serve, WellTypedRun, ValidCatalogue, Recorded;
    if i < j {
      RecordedOverRun(env, names, calls, i, j - 1, name, x);
      ReplyAt(env, names, calls, j - 1);
      RecordedStays(env, CatAt(env, names, calls, j - 1), calls[j - 1], name, x);
    }
  }

  /** The catalogue records every item whose Add reached a live filter, even when Add itself then
      reports that the next stage cannot be sized. */
  lemma AddRecords(env: Env, cat: Catalogue, name: string, x: Item)
    requires env.Sound() && ValidCatalogue(env, cat)
    ensures var (reply, cat') := Serve(env, cat, Call.Add(name, x));
      Recorded(cat', name, x) <==> reply != Failed(ServiceInvalidArgument) && reply != Failed(ServiceNotFound)
  {
    if name != "" && name in cat {
      var items := cat[name].items + [x];
      assert items[|cat[name].items|] == x;
      assert ValidEntry(env, cat[name]);
      AddFailure(env, cat[name], x);
    }
    hide ValidEntry, AddResult, ConfigOf;
  }

  /** The newest stage takes its last item, or more, and the next stage cannot be sized. */
  ghost predicate GrowthBlocked(env: Env, e: Entry)
    requires env.Sound() && ValidEntry(env, e)
  {
    var cfg := ConfigOf(env, e.n, e.p);
    var c := Cut(cfg, e.items, 0);
    |c[|c| - 1]| + 1 >= CapacityAt(cfg, |c| - 1) && cfg.plan(|c|).Err?
  }

  /** Exactly when an Add that records its item nevertheless fails, by the state before it. */
  lemma AddFailsExactly(env: Env, cat: Catalogue, name: string, x: Item)
    requires env.Sound() && ValidCatalogue(env, cat) && name in cat
    ensures name != "" && ValidEntry(env, cat[name])
    ensures var (reply, cat') := Serve(env, cat, Call.Add(name, x));
      && cat' == cat[name := cat[name].(items := cat[name].items + [x])] && Recorded(cat', name, x)
      && reply == if GrowthBlocked(env, cat[name]) then Failed(SizeOverflow) else Added
  {
    var e := cat[name];
    assert name != "" && ValidEntry(env, e);
    AddRecords(env, cat, name, x);
    AddFailure(env, e, x);
    hide ConfigOf, AddResult, ValidCatalogue;
    AddResultExactly(ConfigOf(env, e.n, e.p), e.items, x);
    var items := e.items + [x];
    assert items[|e.items|] == x;
  }

  lemma AddFailure(env: Env, e: Entry, x: Item)
    requires env.Sound() && ValidEntry(env, e)
    ensures var r := AddResult(ConfigOf(env, e.n, e.p), e.items + [x]);
      r.Err? ==> r.error == SizeOverflow
  {
    var cfg := ConfigOf(env, e.n, e.p);
    var count := |Cut(cfg, e.items + [x], 0)|;
    assert cfg.plan(count) == ComputeStage(env, e.n, e.p, DEFAULT_R, DEFAULT_S, count);
    assert cfg.plan(0) == ComputeStage(env, e.n, e.p, DEFAULT_R, DEFAULT_S, 0);
    GrowthFailsOnlyBySize(env, e.n, e.p, count);
  }

  /** Sizing a later stage of a filter that could be created fails only by overflow. */
  lemma GrowthFailsOnlyBySize(env: Env, n: nat, p: real, index: nat)
    requires env.Sound() && ComputeStage(env, n, p, DEFAULT_R, DEFAULT_S, 0).Ok?
    ensures var st := ComputeStage(env, n, p, DEFAULT_R, DEFAULT_S, index); st.Err? ==> st.error == SizeOverflow
  {
    assert StageError(p, 0, DEFAULT_R).Ok?;
    Estimate.BudgetInUnit(p, DEFAULT_R, index);
  }

  /** No false negatives over any sequential run: once Add(x) has answered without complaint, every
      later Exists(x) answers true until the filter is deleted. */
  lemma NoFalseNegatives(env: Env, names: Names, calls: seq<Call>, i: nat, j: nat, name: string, x: Item)
    requires env.Sound() && WellTypedRun(env, names, calls) && i < j < |calls|
    requires calls[i] == Call.Add(name, x) && RunOf(env, names, calls).replies[i] == Added
    requires calls[j] == Call.Exists(name, x)
    requires forall m :: i < m < j ==> calls[m] != Call.Delete(name)
    ensures RunOf(env, names, calls).replies[j] == Found(true)
  {
    hide CatAt, RunOf, Serve, WellTypedRun, ValidCatalogue, Recorded;
    ReplyAt(env, names, calls, i);
    ReplyAt(env, names, calls, j);
    AddRecords(env, CatAt(env, names, calls, i), name, x);
    RecordedOverRun(env, names, calls, i + 1, j, name, x);
    RecordedFound(env, CatAt(env, names, calls, j), name, x);
  }

  // ---------------------------------------------------------------- create ... delete

  predicate AllOn(calls: seq<Call>, name: string) {
    forall i :: 0 <= i < |calls| ==> calls[i].name == name
  }

  lemma PrefixTyped(env: Env, names: Names, before: seq<Call>, session: seq<Call>)
    requires WellTypedRun(env, names, before + session)
    ensures WellTypedRun(env, names, before)
    ensures session != [] ==> WellTypedRun(env, names, before + session[..|session| - 1])
  {
    var all := before + session;
    assert forall i :: 0 <= i < |before| ==> before[i] == all[i];
    assert forall i :: 0 <= i < |all| - 1 ==> (before + session)[..|all| - 1][i] == all[i];
    if session != [] {
      assert before + session[..|session| - 1] == all[..|all| - 1];
    }
  }

  lemma {:induction false} OthersUntouched(env: Env, names: Names, before: seq<Call>, session: seq<Call>, name: string, other: string)
    requires env.Sound() && WellTypedRun(env, names, before + session) && AllOn(session, name) && other != name
    ensures WellTypedRun(env, names, before)
    ensures Lookup(RunOf(env, names, before + session).cat, other) == Lookup(RunOf(env, names, before).cat, other)
  {
    PrefixTyped(env, names, before, session);
    var all := before + session;
    hide RunOf, Serve, WellTypedRun, ValidCatalogue;
    if session == [] {
      assert all == before;
    } else {
      var front, last := session[..|session| - 1], session[|session| - 1];
      assert all[..|all| - 1] == before + front && all[|all| - 1] == last;
      OthersUntouched(env, names, before, front, name, other);
      LastCall(env, names, all);
      ServeElsewhere(env, RunOf(env, names, before + front).cat, last, other);
    }
  }

  /** Create ... Delete leaves no trace: any calls on a name that was free, ending with a Delete,
      take the catalogue back to what it was. */
  lemma SessionLeavesNoTrace(env: Env, names: Names, before: seq<Call>, session: seq<Call>, name: string)
    requires env.Sound() && WellTypedRun(env, names, before + session + [Call.Delete(name)]) && AllOn(session, name)
    ensures WellTypedRun(env, names, before)
    ensures name !in RunOf(env, names, before).cat ==>
      RunOf(env, names, before + session + [Call.Delete(name)]).cat == RunOf(env, names, before).cat
  {
    var all, s := before + session + [Call.Delete(name)], session + [Call.Delete(name)];
    assert all == before + s;
    PrefixTyped(env, names, before, s);
    assert all[..|all| - 1] == before + session && all[|all| - 1] == Call.Delete(name);
    hide RunOf, WellTypedRun, ValidCatalogue;
    var c1, c2 := RunOf(env, names, before).cat, RunOf(env, names, all).cat;
    if name !in c1 {
      forall other | other != name
        ensures Lookup(c2, other) == Lookup(c1, other)
      {
        OthersUntouched(env, names, before, s, name, other);
      }
      LastCall(env, names, all);
      DeletedIsGone(env, RunOf(env, names, before + session).cat, name);
      SameCatalogue(c1, c2, name);
    }
  }

  lemma DeletedIsGone(env: Env, cat: Catalogue, name: string)
    requires env.Sound() && ValidCatalogue(env, cat)
    ensures name !in Serve(env, cat, Call.Delete(name)).1
  {
    hide ValidEntry;
  }

  lemma SameCatalogue(c1: Catalogue, c2: Catalogue, name: string)
    requires name !in c1 && name !in c2 && forall other :: other != name ==> Lookup(c2, other) == Lookup(c1, other)
    ensures c1 == c2
  {
    forall other | other in c1
      ensures other in c2 && c2[other] == c1[other]
    {
      assert Lookup(c2, other) == Lookup(c1, other);
    }
    forall other | other in c2
      ensures other in c1
    {
      assert Lookup(c2, other) == Lookup(c1, other);
    }
  }

  /** The store round trip: whatever was created, added and read under a free name, once the filter
      is deleted the store holds what it held before, up to an empty registry set. */
  lemma StoreRoundTrip(env: Env, names: Names, before: seq<Call>, session: seq<Call>, name: string, st1: StoreState, st2: StoreState)
    requires env.Sound() && WellTypedRun(env, names, before + session + [Call.Delete(name)]) && AllOn(session, name)
    requires WellTypedRun(env, names, before) && name !in RunOf(env, names, before).cat
    requires Rep(env, names, st1, WorldOf(env, RunOf(env, names, before).cat))
    requires Rep(env, names, st2, WorldOf(env, RunOf(env, names, before + session + [Call.Delete(name)]).cat))
    ensures st1.hashes == st2.hashes && st1.bitmaps == st2.bitmaps && st1.counters == st2.counters
    ensures forall key :: MembersOf(st1, key) == MembersOf(st2, key)
  {
    hide RunOf, Rep, WorldOf;
    SessionLeavesNoTrace(env, names, before, session, name);
    RepDetermines(env, names, st1, st2, WorldOf(env, RunOf(env, names, before).cat));
    forall key
      ensures MembersOf(st1, key) == MembersOf(st2, key)
    {
      assert CellAt(st1, key) == CellAt(st2, key);
    }
  }

  // ---------------------------------------------------------------- one handle

  /** Adding through a handle that shows the whole chain leaves it showing the whole chain, live
      counters included, with no reload. */
  lemma CurrentStaysCurrent(cfg: Config, ch: Stages, x: Item)
    requires cfg.Sound() && ch != [] && Planned(cfg, ch)
    ensures var (_, ch', handle) := AddOf(cfg, ch, HandleStages(ch), x); handle == HandleStages(ch')
  {
    var i := |ch| - 1;
    var wrote := AddBitsOf(cfg, ch, i, HandleStages(ch)[i], x);
    var (_, ch', handle) := AddOf(cfg, ch, HandleStages(ch), x);
    assert |wrote| == |ch| && forall j :: 0 <= j < |ch| ==> wrote[j] == ch[j].(bits := wrote[j].bits);
    assert |handle| == |ch'|;
    forall j | 0 <= j < |handle|
      ensures handle[j] == HandleStages(ch')[j]
    {
    }
  }

  lemma StagesPlanned(cfg: Config, items: seq<Item>)
    requires cfg.Sound() && cfg.plan(0).Ok?
    ensures Planned(cfg, StagesOf(cfg, items))
  {
    StagesOfAt(cfg, items);
    hide StagesOf, Cut;
    var ch := StagesOf(cfg, items);
    forall i | 0 <= i < |ch|
      ensures cfg.plan(i).Ok? && Agree(cfg.plan(i).value, i, ch[i])
    {
      assert Sizable(cfg, i) && ch[i] == Filled(cfg, i, Cut(cfg, items, 0)[i]);
    }
  }

  /** One Add of the single-handle session. */
  lemma SessionStep(env: Env, names: Names, st: StoreState, cat: Catalogue, name: string, item: Item)
    requires env.Sound() && ValidCatalogue(env, cat) && Rep(env, names, st, WorldOf(env, cat)) && name in cat && name in names.all
    requires |cat[name].items| + 1 < TWO63
    ensures var e, w := cat[name], WorldOf(env, cat);
      var cat' := cat[name := e.(items := e.items + [item])];
      var (_, ch', handle) := AddOf(ConfigOf(env, e.n, e.p), w[name].stages, HandleStages(w[name].stages), item);
      && ValidWorld(env, w) && w[name].n == e.n && w[name].p == e.p
      && ValidCatalogue(env, cat') && name in WorldOf(env, cat')
      && WithStages(w, name, ch') == WorldOf(env, cat')
      && handle == HandleStages(WorldOf(env, cat')[name].stages)
  {
    AddServes(env, names, st, cat, name, item);
    WorldIsValid(env, cat);
    var e := cat[name];
    assert ValidEntry(env, e);
    StagesPlanned(ConfigOf(env, e.n, e.p), e.items);
    CurrentStaysCurrent(ConfigOf(env, e.n, e.p), WorldOf(env, cat)[name].stages, item);
    hide Rep, ConfigOf, AddOf, ValidCatalogue, ValidWorld, ValidEntry, StagesOf, HandleStages, HandleOk, Serve;
  }

  /** The handle shows the whole chain of its filter in the catalogue. */
  ghost predicate Current(f: Filter, env: Env, cat: Catalogue, name: string)
    requires env.Sound() && ValidCatalogue(env, cat)
    reads f
  {
    && name in WorldOf(env, cat)
    && f.stages == HandleStages(WorldOf(env, cat)[name].stages)
    && f.name == name && f.n == cat[name].n && f.p == cat[name].p && f.r == DEFAULT_R && f.s == DEFAULT_S
  }

  function WithItems(cat: Catalogue, name: string, items: seq<Item>): Catalogue
    requires name in cat
  {
    cat[name := cat[name].(items := cat[name].items + items)]
  }

  /** Adds through one handle: it stays current, and each item is appended to the list. */
  method AddAll(f: Filter, ghost names: Names, ghost cat: Catalogue, name: string, items: seq<Item>)
    requires f.env.Sound() && Family(names) && ValidCatalogue(f.env, cat) && name in cat && name in names.all
    requires Rep(f.env, names, f.store.State(), WorldOf(f.env, cat)) && Current(f, f.env, cat, name)
    requires |cat[name].items| + |items| < TWO63
    modifies f, f.store
    ensures ValidCatalogue(f.env, WithItems(cat, name, items))
    ensures Rep(f.env, names, f.store.State(), WorldOf(f.env, WithItems(cat, name, items)))
    ensures Current(f, f.env, WithItems(cat, name, items), name)
  {
    hide Rep, Family, ValidCatalogue, ValidWorld, WorldOf, HandleStages, HandleOk, ConfigOf, AddOf, Serve;
    ghost var live := cat;
    assert cat[name].items + [] == cat[name].items;
    for i := 0 to |items|
      invariant live == WithItems(cat, name, items[..i]) && ValidCatalogue(f.env, live)
      invariant Rep(f.env, names, f.store.State(), WorldOf(f.env, live)) && Current(f, f.env, live, name)
    {
      AddServes(f.env, names, f.store.State(), live, name, items[i]);
      SessionStep(f.env, names, f.store.State(), live, name, items[i]);
      ghost var w := WorldOf(f.env, live);
      assert f.HandleFor(w);
      var q := f.Add(items[i], names, w);
      assert items[..i + 1] == items[..i] + [items[i]];
      assert cat[name].items + items[..i + 1] == cat[name].items + items[..i] + [items[i]];
      live := WithItems(live, name, [items[i]]);
    }
    assert items[..|items|] == items;
  }

  /** Two handles with the same name, parameters and stages, fill counts included. */
  predicate SameHandle(a: Filter, b: Filter)
    reads a, b
  {
    a.name == b.name && Handle(a.n, a.p, a.r, a.s, a.stages) == Handle(b.n, b.p, b.r, b.s, b.stages)
  }

  method AddAllThenLoad(f: Filter, ghost names: Names, ghost cat: Catalogue, name: string, items: seq<Item>)
    returns (loaded: Result<Filter>)
    requires f.env.Sound() && Family(names) && ValidCatalogue(f.env, cat) && name in cat && name in names.all
    requires Rep(f.env, names, f.store.State(), WorldOf(f.env, cat)) && Current(f, f.env, cat, name)
    requires |cat[name].items| + |items| < TWO63
    modifies f, f.store
    ensures loaded.Ok? && fresh(loaded.value) && SameHandle(f, loaded.value)
    ensures var e := WithItems(cat, name, items)[name];
      ValidEntry(f.env, e) && f.stages == HandleStages(StateOf(f.env, e).stages)
  {
    AddAll(f, names, cat, name, items);
    hide Rep, Family, ValidCatalogue, ValidEntry, WorldOf, StateOf, HandleStages, LoadOf;
    ghost var filled := WithItems(cat, name, items);
    LoadEntry(f.env, names, f.store.State(), filled, name, filled[name]);
    loaded := Filter.Load(f.env, f.store, name);
  }

  /** Persistence round trip: create a filter and add any items through the one handle New returned;
      a fresh Load then returns a handle equal to it in every parameter and every live count. */
  method CreateAndFill(env: Env, store: MemStore, ghost names: Names, ghost cat: Catalogue,
                       name: string, n: nat, p: real, now: string, items: seq<Item>)
    returns (created: Result<Filter>, loaded: Result<Filter>)
    requires env.Sound() && Family(names) && ValidCatalogue(env, cat) && Rep(env, names, store.State(), WorldOf(env, cat))
    requires Admissible(env, names, cat, Call.Create(name, n, p, now)) && |items| < TWO63
    modifies store
    ensures created.Ok? <==> CreateError(env, name, n, p, name in cat).None?
    ensures created.Err? ==> store.State() == old(store.State())
    ensures created.Ok? ==>
      && loaded.Ok? && loaded.value != created.value && SameHandle(created.value, loaded.value)
      && ValidEntry(env, Entry(n, p, now, items))
      && created.value.stages == HandleStages(StateOf(env, Entry(n, p, now, items)).stages)
  {
    NewStartsCurrent(env, names, store.State(), cat, name, n, p, now);
    hide Rep, Family, ValidCatalogue, ValidEntry, WorldOf, StateOf, HandleStages, LoadOf, NewOf, CreateError, Admissible;
    created := Filter.New(env, store, name, n, p, now);
    loaded := created;
    if created.Ok? {
      ghost var live := cat[name := Entry(n, p, now, [])];
      assert Current(created.value, env, live, name);
      loaded := AddAllThenLoad(created.value, names, live, name, items);
      assert [] + items == items;
    }
  }

  /** What New returns and leaves behind, in the terms of the catalogue. */
  lemma NewStartsCurrent(env: Env, names: Names, st: StoreState, cat: Catalogue, name: string, n: nat, p: real, now: string)
    requires env.Sound() && Family(names) && ValidCatalogue(env, cat) && Rep(env, names, st, WorldOf(env, cat))
    requires Admissible(env, names, cat, Call.Create(name, n, p, now))
    ensures var (r, st') := NewOf(env, st, name, n, p, now);
      var live := cat[name := Entry(n, p, now, [])];
      && (r.Ok? <==> CreateError(env, name, n, p, name in cat).None?)
      && (r.Err? ==> st' == st)
      && (r.Ok? ==> ValidCatalogue(env, live) && Rep(env, names, st', WorldOf(env, live)) && name in WorldOf(env, live))
      && (r.Ok? ==> r.value == Handle(n, p, DEFAULT_R, DEFAULT_S, HandleStages(WorldOf(env, live)[name].stages)))
  {
    CreateServes(env, names, st, cat, name, n, p, now);
    LoadFinds(env, names, st, cat, name);
    hide Rep, Family, ValidCatalogue, WorldOf, HandleStages, ConfigOf, LoadOf, ComputeStage, CreateError;
    var (r, st') := NewOf(env, st, name, n, p, now);
    if r.Ok? {
      StartsCurrent(env, cat[name := Entry(n, p, now, [])], name);
    }
  }

  lemma LoadEntry(env: Env, names: Names, st: StoreState, cat: Catalogue, name: string, e: Entry)
    requires env.Sound() && ValidCatalogue(env, cat) && Rep(env, names, st, WorldOf(env, cat)) && name in names.all
    requires name in cat && cat[name] == e
    ensures ValidEntry(env, e)
    ensures WorldOf(env, cat)[name].stages == StateOf(env, e).stages
    ensures LoadOf(env, st, name) == Ok(Handle(e.n, e.p, DEFAULT_R, DEFAULT_S, HandleStages(StateOf(env, e).stages)))
  {
    assert ValidEntry(env, e);
    LoadFinds(env, names, st, cat, name);
    hide Rep, ValidEntry, LoadOf, StateOf, HandleStages;
  }
}
