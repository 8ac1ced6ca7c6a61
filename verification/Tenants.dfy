/** Many filters at once: any number of filters, each with any number of clients, run concurrently
    over one store, and filters are created and dropped while clients of others are in the middle of
    calls. Each filter's part of such a run is a run of its own protocol, and the one store represents
    them all at every moment. */
module Tenants {
  import opened Base
  import opened Runtime
  import opened Keys
  import opened Store
  import opened Sizing
  import opened Chain
  import opened Layout
  import opened Persist
  import opened Protocol
  import opened ProtocolSafety
  import opened Bridge
  import Engine

  /** The live filters' parameters, with the chains of those at rest, and the protocol state of every
      filter that is in use. */
  datatype Tenancy = Tenancy(filters: World, systems: map<string, Sys>)

  /** What a store should hold: the chains of the filters in use are the shared ones. */
  function WorldAt(t: Tenancy): World {
    map name | name in t.filters ::
      if name in t.systems then t.filters[name].(stages := t.systems[name].sh.chain) else t.filters[name]
  }

  /** One filter takes a step: a client of it moves, or a write of a call given up on arrives. */
  ghost predicate Moves(env: Env, t: Tenancy, t': Tenancy, name: string)
    requires env.Sound()
  {
    && name in t.filters && name in t.systems && name in t'.systems
    && Next(Cfg(env, t.filters, name), t.systems[name], t'.systems[name])
    && t' == t.(systems := t.systems[name := t'.systems[name]])
  }

  /** New succeeds for a name that is free, and clients begin to use the filter. */
  ghost predicate Creates(env: Env, t: Tenancy, t': Tenancy, name: string)
    requires env.Sound()
  {
    && name !in t.filters && name !in t.systems && name in t'.filters && name in t'.systems
    && var f := t'.filters[name];
       && f.n < TWO64 && env.isFloat(f.p) && CreateError(env, name, f.n, f.p, false).None?
       && f.stages == t'.systems[name].sh.chain && Init(Cfg(env, t'.filters, name), t'.systems[name])
       && t' == Tenancy(t.filters[name := f], t.systems[name := t'.systems[name]])
  }

  /** No client is in the middle of a call and no write is adrift. */
  predicate Quiet(s: Sys) {
    s.sh.adrift == multiset{} && forall id :: id in s.clients ==> Resting(s.clients[id].pc)
  }

  /** A filter at rest, or one no call of which is in flight, is dropped through a current handle. */
  predicate Drops(t: Tenancy, t': Tenancy, name: string) {
    && name in t.filters && (name in t.systems ==> Quiet(t.systems[name]))
    && t' == Tenancy(t.filters - {name}, t.systems - {name})
  }

  ghost predicate Turn(env: Env, t: Tenancy, t': Tenancy, name: string)
    requires env.Sound()
  {
    Moves(env, t, t', name) || Creates(env, t, t', name) || Drops(t, t', name)
  }

  ghost predicate ProductNext(env: Env, t: Tenancy, t': Tenancy)
    requires env.Sound()
  {
    exists name :: Turn(env, t, t', name)
  }

  ghost predicate TurnAt(env: Env, run: seq<Tenancy>, i: int)
    requires env.Sound() && 0 <= i < |run| - 1
  {
    ProductNext(env, run[i], run[i + 1])
  }

  /** Any filters may be at rest, and any fresh ones already in use. */
  ghost predicate Starts(env: Env, t: Tenancy)
    requires env.Sound()
  {
    forall name :: name in t.systems ==> name in t.filters && Init(Cfg(env, t.filters, name), t.systems[name])
  }

  ghost predicate IsProductRun(env: Env, run: seq<Tenancy>)
    requires env.Sound()
  {
    run != [] && Starts(env, run[0]) && forall i :: 0 <= i < |run| - 1 ==> TurnAt(env, run, i)
  }

  // ---------------------------------------------------------------- one filter's part

  /** From step b to step e of the product the filter is in use, and since b; a name that is dropped
      and created again is a new filter. */
  predicate InUse(run: seq<Tenancy>, name: string, b: nat, e: nat) {
    && b <= e < |run|
    && (b > 0 ==> name !in run[b - 1].systems)
    && forall i :: b <= i <= e ==> name in run[i].systems
  }

  /** at[i] is how far the filter's own run has come when the product has taken i steps since b. */
  predicate Follows(run: seq<Tenancy>, name: string, b: nat, solo: seq<Sys>, at: seq<nat>) {
    b + |at| <= |run| && forall i :: 0 <= i < |at| ==> FollowsAt(run, name, b, solo, at, i)
  }

  predicate FollowsAt(run: seq<Tenancy>, name: string, b: nat, solo: seq<Sys>, at: seq<nat>, i: int)
    requires 0 <= i < |at| && b + |at| <= |run|
  {
    && name in run[b + i].systems && at[i] < |solo| && solo[at[i]] == run[b + i].systems[name]
    && (i > 0 ==> at[i - 1] <= at[i] <= at[i - 1] + 1)
  }

  lemma TurnOf(env: Env, run: seq<Tenancy>, i: nat) returns (name: string)
    requires env.Sound() && IsProductRun(env, run) && i + 1 < |run|
    ensures Turn(env, run[i], run[i + 1], name)
  {
    hide Turn, Starts;
    assert TurnAt(env, run, i);
    name :| Turn(env, run[i], run[i + 1], name);
  }

  /** What a turn does to one filter that is in use after it. */
  lemma TurnOnFilter(env: Env, t: Tenancy, t': Tenancy, mover: string, name: string)
    requires env.Sound() && Turn(env, t, t', mover) && name in t'.systems
    ensures name !in t.systems ==> name in t'.filters && Init(Cfg(env, t'.filters, name), t'.systems[name])
    ensures name in t.systems && name in t.filters ==>
      && name in t'.filters && Cfg(env, t'.filters, name) == Cfg(env, t.filters, name)
      && (t'.systems[name] == t.systems[name] || Next(Cfg(env, t.filters, name), t.systems[name], t'.systems[name]))
  {
    hide Init, Next, ConfigOf;
  }

  /** A filter comes into use fresh. */
  lemma FreshInUse(env: Env, run: seq<Tenancy>, name: string, b: nat)
    requires env.Sound() && IsProductRun(env, run) && InUse(run, name, b, b)
    ensures name in run[b].filters && Init(Cfg(env, run[b].filters, name), run[b].systems[name])
  {
    hide Turn, Init, Cfg;
    if b > 0 {
      var mover := TurnOf(env, run, b - 1);
      TurnOnFilter(env, run[b - 1], run[b], mover, name);
    }
  }

  /** One more turn of the product, in which the filter's own run goes on to solo' or stays. */
  lemma FollowsOn(run: seq<Tenancy>, name: string, b: nat, solo: seq<Sys>, solo': seq<Sys>, at: seq<nat>, e: nat)
    requires Follows(run, name, b, solo, at) && at != [] && at[|at| - 1] == |solo| - 1
    requires e == b + |at| < |run| && name in run[e].systems
    requires solo <= solo' && |solo'| <= |solo| + 1 && solo'[|solo'| - 1] == run[e].systems[name]
    ensures Follows(run, name, b, solo', at + [|solo'| - 1])
  {
    var at' := at + [|solo'| - 1];
    forall i | 0 <= i < |at'|
      ensures FollowsAt(run, name, b, solo', at', i)
    {
      if i < |at| {
        assert FollowsAt(run, name, b, solo, at, i);
      }
    }
  }

  lemma FollowsLast(run: seq<Tenancy>, name: string, b: nat, solo: seq<Sys>, at: seq<nat>, e: nat)
    requires Follows(run, name, b, solo, at) && at != [] && at[|at| - 1] == |solo| - 1 && e == b + |at| - 1
    ensures e < |run| && name in run[e].systems && solo[|solo| - 1] == run[e].systems[name]
  {
    assert FollowsAt(run, name, b, solo, at, |at| - 1);
  }

  /** Tenant isolation under concurrency: leave out everybody else's steps, creations and drops, and
      what remains of a filter, from its creation on, is a run of its own protocol, ending each
      stretch in the same state. All that is proved of one filter's runs therefore holds of it in the
      product. */
  lemma {:induction false} Project(env: Env, run: seq<Tenancy>, name: string, b: nat, e: nat)
    returns (solo: seq<Sys>, at: seq<nat>)
    requires env.Sound() && IsProductRun(env, run) && InUse(run, name, b, e)
    ensures name in run[b].filters && IsRun(Cfg(env, run[b].filters, name), solo)
    ensures name in run[e].filters && Cfg(env, run[e].filters, name) == Cfg(env, run[b].filters, name)
    ensures |at| == e - b + 1 && at[0] == 0 && at[e - b] == |solo| - 1 && Follows(run, name, b, solo, at)
  {
    hide Init, Next, Cfg, IsRun, Turn;
    if e == b {
      FreshInUse(env, run, name, b);
      InitIsRun(Cfg(env, run[b].filters, name), run[b].systems[name]);
      solo, at := [run[b].systems[name]], [0];
    } else {
      solo, at := Project(env, run, name, b, e - 1);
      var mover := TurnOf(env, run, e - 1);
      TurnOnFilter(env, run[e - 1], run[e], mover, name);
      hide IsProductRun, Follows;
      FollowsLast(run, name, b, solo, at, e - 1);
      var before := solo;
      if run[e].systems[name] != run[e - 1].systems[name] {
        RunSnoc(Cfg(env, run[b].filters, name), solo, run[e].systems[name]);
        solo := solo + [run[e].systems[name]];
      }
      FollowsOn(run, name, b, before, solo, at, e);
      at := at + [|solo| - 1];
    }
  }

  // ---------------------------------------------------------------- the one store

  /** The store represents all filters of the moment. */
  ghost predicate Stored(env: Env, names: Names, t: Tenancy, st: StoreState)
    requires env.Sound()
  {
    Family(names) && Rep(env, names, st, WorldAt(t)) && ValidWorld(env, WorldAt(t))
  }

  /** The family has room for the filters of the moment. */
  ghost predicate RoomFor(env: Env, names: Names, t: Tenancy) {
    forall name :: name in t.filters ==> name in names.all && Allows(env, names, name, t.filters[name].n, t.filters[name].p)
  }

  ghost predicate AllInv(env: Env, t: Tenancy)
    requires env.Sound()
  {
    forall name :: name in t.systems ==>
      name in t.filters && Inv(Cfg(env, t.filters, name), t.systems[name]) && LocalsAt(t.systems[name])
  }

  predicate CountersFit(t: Tenancy) {
    forall name :: name in t.systems ==> t.systems[name].sh.incs < TWO63
  }

  /** New, with the three writes it makes when it succeeds. */
  ghost predicate StoredCreate(env: Env, t': Tenancy, st: StoreState, st': StoreState, name: string)
    requires env.Sound()
  {
    && name in t'.filters
    && var f := t'.filters[name];
       NewOf(env, st, name, f.n, f.p, f.created) == (Ok(Handle(f.n, f.p, DEFAULT_R, DEFAULT_S, HandleStages(f.stages))), st')
  }

  /** Drop, with the deletions it makes through a handle that knows every stage. */
  predicate StoredDrop(t: Tenancy, st: StoreState, st': StoreState, name: string) {
    name in t.filters && st' == DropOf(st, name, HandleStages(WorldAt(t)[name].stages))
  }

  /** A step of a filter is its one store call, and a client that moves computes its next state from
      the answer; a creation or a drop is New's or Drop's calls. */
  ghost predicate StoredTurn(env: Env, t: Tenancy, t': Tenancy, st: StoreState, st': StoreState, name: string)
    requires env.Sound()
  {
    || (Moves(env, t, t', name) && StoreNext(Cfg(env, t.filters, name), name, t.systems[name], t'.systems[name], st, st'))
    || (Creates(env, t, t', name) && StoredCreate(env, t', st, st', name))
    || (Drops(t, t', name) && StoredDrop(t, st, st', name))
  }

  ghost predicate StoredNext(env: Env, t: Tenancy, t': Tenancy, st: StoreState, st': StoreState)
    requires env.Sound()
  {
    exists name :: StoredTurn(env, t, t', st, st', name)
  }

  ghost predicate StoredTurnAt(env: Env, run: seq<Tenancy>, stores: seq<StoreState>, i: int)
    requires env.Sound() && |stores| <= |run| && 0 <= i < |stores| - 1
  {
    StoredNext(env, run[i], run[i + 1], stores[i], stores[i + 1])
  }

  lemma FreshInv(env: Env, w: World, name: string, s: Sys)
    requires env.Sound() && name in w && Init(Cfg(env, w, name), s)
    ensures Inv(Cfg(env, w, name), s) && LocalsAt(s)
  {
    hide *;
    CfgFits(env, w, name);
    InitHasInv(Cfg(env, w, name), s);
    InitLocals(Cfg(env, w, name), s);
  }

  lemma StartsInv(env: Env, t: Tenancy)
    requires env.Sound() && Starts(env, t)
    ensures AllInv(env, t)
  {
    hide Init, Inv, LocalsAt, Cfg;
    forall name | name in t.systems
      ensures name in t.filters && Inv(Cfg(env, t.filters, name), t.systems[name]) && LocalsAt(t.systems[name])
    {
      FreshInv(env, t.filters, name, t.systems[name]);
    }
  }

  lemma NextKeepsAll(env: Env, w: World, name: string, s: Sys, s': Sys)
    requires env.Sound() && name in w && Next(Cfg(env, w, name), s, s')
    requires Inv(Cfg(env, w, name), s) && LocalsAt(s)
    ensures Inv(Cfg(env, w, name), s') && LocalsAt(s')
  {
    hide *;
    CfgFits(env, w, name);
    NextKeepsInv(Cfg(env, w, name), s, s');
    NextKeepsLocals(Cfg(env, w, name), s, s');
  }

  lemma TurnKeepsInv(env: Env, t: Tenancy, t': Tenancy, mover: string)
    requires env.Sound() && AllInv(env, t) && Turn(env, t, t', mover)
    ensures AllInv(env, t')
  {
    hide Turn, Init, Next, Inv, LocalsAt, Cfg;
    forall name | name in t'.systems
      ensures name in t'.filters && Inv(Cfg(env, t'.filters, name), t'.systems[name]) && LocalsAt(t'.systems[name])
    {
      TurnOnFilter(env, t, t', mover, name);
      if name !in t.systems {
        FreshInv(env, t'.filters, name, t'.systems[name]);
      } else if t'.systems[name] != t.systems[name] {
        NextKeepsAll(env, t.filters, name, t.systems[name], t'.systems[name]);
      }
    }
  }

  lemma {:induction false} AllInvAt(env: Env, run: seq<Tenancy>, i: nat)
    requires env.Sound() && IsProductRun(env, run) && i < |run|
    ensures AllInv(env, run[i])
  {
    hide Turn, Starts, AllInv;
    if i == 0 {
      StartsInv(env, run[0]);
    } else {
      AllInvAt(env, run, i - 1);
      var mover := TurnOf(env, run, i - 1);
      TurnKeepsInv(env, run[i - 1], run[i], mover);
    }
  }

  lemma WorldMoves(t: Tenancy, t': Tenancy, name: string)
    requires name in t.filters && name in t.systems && name in t'.systems
    requires t' == t.(systems := t.systems[name := t'.systems[name]])
    ensures var w := WorldAt(t);
      && name in w && w[name].n == t.filters[name].n && w[name].p == t.filters[name].p
      && WithStages(w, name, t.systems[name].sh.chain) == w
      && WithStages(w, name, t'.systems[name].sh.chain) == WorldAt(t')
  {
    var w := WorldAt(t);
    assert w[name].(stages := t.systems[name].sh.chain) == w[name];
    assert WorldAt(t').Keys == w.Keys;
  }

  lemma InFamily(env: Env, names: Names, st: StoreState, w: World, name: string)
    requires Rep(env, names, st, w) && name in w
    ensures name in names.all
  {
  }

  lemma MovesOnStore(env: Env, names: Names, t: Tenancy, t': Tenancy, st: StoreState, name: string)
    returns (st': StoreState)
    requires env.Sound() && Stored(env, names, t, st) && AllInv(env, t) && AllInv(env, t')
    requires Moves(env, t, t', name) && CountersFit(t')
    ensures StoredTurn(env, t, t', st, st', name) && Stored(env, names, t', st')
  {
    hide Next, Inv, LocalsAt, Rep, Family, ValidWorld, WorldAt, StoreNext, ConfigOf, Creates, Drops;
    var w := WorldAt(t);
    WorldMoves(t, t', name);
    InFamily(env, names, st, w, name);
    assert Cfg(env, w, name) == Cfg(env, t.filters, name);
    st' := NextOnStore(env, names, w, name, t.systems[name], t'.systems[name], st);
  }

  lemma CreatesOnStore(env: Env, names: Names, t: Tenancy, t': Tenancy, st: StoreState, name: string)
    returns (st': StoreState)
    requires env.Sound() && Stored(env, names, t, st) && RoomFor(env, names, t') && Creates(env, t, t', name)
    ensures StoredTurn(env, t, t', st, st', name) && Stored(env, names, t', st')
  {
    CreatedWorld(env, t, t', name);
    var f := t'.filters[name];
    hide WorldAt, Rep, Family, ValidWorld, Allows, NewOf, ComputeStage, Moves, Drops, CreateError, HandleStages, Init;
    NewUnderRep(env, names, st, WorldAt(t), name, f.n, f.p, f.created);
    st' := NewOf(env, st, name, f.n, f.p, f.created).1;
  }

  /** The filter that a creation adds: one empty stage, which its handle lists. */
  lemma CreatedWorld(env: Env, t: Tenancy, t': Tenancy, name: string)
    requires env.Sound() && Creates(env, t, t', name)
    ensures name !in WorldAt(t) && WorldAt(t') == WorldAt(t)[name := t'.filters[name]]
    ensures var f := t'.filters[name];
      && ComputeStage(env, f.n, f.p, DEFAULT_R, DEFAULT_S, 0).Ok?
      && var st := ComputeStage(env, f.n, f.p, DEFAULT_R, DEFAULT_S, 0).value;
         f == FilterState(f.n, f.p, f.created, [Fresh(st)]) && HandleStages(f.stages) == [st]
  {
    hide ComputeStage, CreateError;
    var f := t'.filters[name];
    Engine.ConfigIsSound(env, f.n, f.p);
    assert ConfigOf(env, f.n, f.p).plan(0) == ComputeStage(env, f.n, f.p, DEFAULT_R, DEFAULT_S, 0);
    assert WorldAt(t') == WorldAt(t)[name := f];
  }

  lemma DropsOnStore(env: Env, names: Names, t: Tenancy, t': Tenancy, st: StoreState, name: string)
    returns (st': StoreState)
    requires env.Sound() && Stored(env, names, t, st) && Drops(t, t', name)
    ensures StoredTurn(env, t, t', st, st', name) && Stored(env, names, t', st')
  {
    hide Rep, Family, ValidWorld, DropOf, HandleStages, Moves, Creates;
    DropUnderRep(env, names, st, WorldAt(t), name);
    st' := DropOf(st, name, HandleStages(WorldAt(t)[name].stages));
    assert WorldAt(t') == WorldAt(t) - {name};
  }

  lemma TurnOnStore(env: Env, names: Names, t: Tenancy, t': Tenancy, st: StoreState, name: string)
    returns (st': StoreState)
    requires env.Sound() && Stored(env, names, t, st) && AllInv(env, t) && AllInv(env, t')
    requires Turn(env, t, t', name) && CountersFit(t') && RoomFor(env, names, t')
    ensures StoredTurn(env, t, t', st, st', name) && Stored(env, names, t', st')
  {
    hide Moves, Creates, Drops, Stored, AllInv, StoredTurn, CountersFit, RoomFor;
    if Moves(env, t, t', name) {
      st' := MovesOnStore(env, names, t, t', st, name);
    } else if Creates(env, t, t', name) {
      st' := CreatesOnStore(env, names, t, t', st, name);
    } else {
      st' := DropsOnStore(env, names, t, t', st, name);
    }
  }

  ghost predicate StoredRun(env: Env, names: Names, run: seq<Tenancy>, stores: seq<StoreState>)
    requires env.Sound()
  {
    && 0 < |stores| <= |run|
    && (forall i :: 0 <= i < |stores| - 1 ==> StoredTurnAt(env, run, stores, i))
    && (forall i :: 0 <= i < |stores| ==> Stored(env, names, run[i], stores[i]))
  }

  lemma StoredSnoc(env: Env, names: Names, run: seq<Tenancy>, before: seq<StoreState>, next: StoreState, name: string)
    requires env.Sound() && StoredRun(env, names, run, before) && |before| < |run|
    requires var k := |before|;
      StoredTurn(env, run[k - 1], run[k], before[k - 1], next, name) && Stored(env, names, run[k], next)
    ensures StoredRun(env, names, run, before + [next])
  {
    hide StoredTurn, Stored;
    var stores := before + [next];
    forall i | 0 <= i < |stores| - 1
      ensures StoredTurnAt(env, run, stores, i)
    {
      if i < |before| - 1 {
        assert StoredTurnAt(env, run, before, i);
      } else {
        assert StoredTurn(env, run[i], run[i + 1], stores[i], stores[i + 1], name);
      }
    }
    forall i | 0 <= i < |stores|
      ensures Stored(env, names, run[i], stores[i])
    {
      assert i < |before| ==> Stored(env, names, run[i], before[i]);
    }
  }

  /** Every concurrent run of many filters is a run of one store: each step of a client is at most one
      store call, filters come and go by New's and Drop's calls, and at every moment the store
      represents the chains of all the filters. */
  lemma {:induction false} ProductOnStore(env: Env, names: Names, run: seq<Tenancy>, st: StoreState, k: nat)
    returns (stores: seq<StoreState>)
    requires env.Sound() && IsProductRun(env, run) && k < |run| && Stored(env, names, run[0], st)
    requires forall i :: 0 <= i <= k ==> CountersFit(run[i]) && RoomFor(env, names, run[i])
    ensures StoredRun(env, names, run, stores) && |stores| == k + 1 && stores[0] == st
  {
    hide IsProductRun, Turn, Stored, AllInv, CountersFit, RoomFor, StoredTurn;
    stores := [st];
    if k > 0 {
      var before := ProductOnStore(env, names, run, st, k - 1);
      AllInvAt(env, run, k - 1);
      AllInvAt(env, run, k);
      var name := TurnOf(env, run, k - 1);
      assert Stored(env, names, run[k - 1], before[k - 1]);
      var next := TurnOnStore(env, names, run[k - 1], run[k], before[k - 1], name);
      hide StoredRun;
      stores := before + [next];
      StoredSnoc(env, names, run, before, next, name);
    }
  }

  /** A Load at any moment of such a run sees exactly its own filter's chain, whatever the clients of
      other filters are in the middle of, and finds no filter that is not there. */
  lemma LoadDuringRun(env: Env, names: Names, t: Tenancy, st: StoreState, name: string)
    requires env.Sound() && Stored(env, names, t, st)
    ensures name in t.filters ==>
      LoadOf(env, st, name) == Ok(Handle(t.filters[name].n, t.filters[name].p, DEFAULT_R, DEFAULT_S,
        HandleStages(if name in t.systems then t.systems[name].sh.chain else t.filters[name].stages)))
    ensures name in names.all && name != "" && name !in t.filters ==> LoadOf(env, st, name) == Err(FilterNotFound)
  {
    var w := WorldAt(t);
    assert name in w ==> name in names.all && name != "";
    hide Rep, ValidWorld, LoadOf, HandleStages;
    if name in names.all {
      LoadUnderRep(env, names, st, w, name);
    }
  }
}
