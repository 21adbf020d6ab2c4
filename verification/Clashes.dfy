/** What happens if two controllers have a route in common
    (`pkg/parrot/parrot.go`, `pkg/bgp/store.go`): for every such plan there is a
    run of the program after which the speaker does not announce what a route
    store holds. */
module Clashes {
  import opened Prelude
  import opened Routes
  import opened RouteStores
  import opened ClusterObjects
  import opened Convergence
  import opened Parrot
  import EH = ExternalHistory
  import OC = ObjectConvergence
  import OP = ObjectPass
  import Runs

  // Runs of one controller among the others

  function Lifted<O, E, M>(t: Seat<O, E, M>, ss: seq<Convergence.Step<E, M>>): seq<Parrot.Step> {
    seq(|ss|, i requires 0 <= i < |ss| => t.step(ss[i]))
  }

  /** Where the steps `ss` of one controller lead. */
  ghost function Led<O, E, M>(plan: Plan, t: Seat<O, E, M>, f: State, ss: seq<Convergence.Step<E, M>>): State {
    Runs.After(Parrot.Steps(plan), f, Lifted(t, ss))
  }

  lemma LastLifted<O, E, M>(plan: Plan, t: Seat<O, E, M>, f: State, ss: seq<Convergence.Step<E, M>>)
    requires ss != []
    ensures var init, s := ss[..|ss| - 1], ss[|ss| - 1];
            && Led(plan, t, f, ss) == Parrot.Apply(plan, Led(plan, t, f, init), t.step(s))
            && (Runs.IsRun(Parrot.Steps(plan), f, Lifted(t, ss)) <==>
                && Runs.IsRun(Parrot.Steps(plan), f, Lifted(t, init))
                && Parrot.Enabled(plan, Led(plan, t, f, init), t.step(s)))
  {
    assert Lifted(t, ss)[..|ss| - 1] == Lifted(t, ss[..|ss| - 1]);
  }

  lemma {:induction false} SeatRun<O(!new), E(!new), M(!new)>(
    plan: Plan, t: Seat<O, E, M>, f: State, ss: seq<Convergence.Step<E, M>>)
    requires Seated(plan, t) && Runs.IsRun(Convergence.Steps(t.c), t.at(f), ss)
    ensures Runs.IsRun(Parrot.Steps(plan), f, Lifted(t, ss))
    ensures t.at(Led(plan, t, f, ss)) == Runs.After(Convergence.Steps(t.c), t.at(f), ss)
  {
    if ss != [] {
      var init, s := ss[..|ss| - 1], ss[|ss| - 1];
      SeatRun(plan, t, f, init);
      LastLifted(plan, t, f, ss);
      SeatedStep(plan, t, Led(plan, t, f, init), s);
    }
  }

  /** If the store holds k, the speaker announces it. */
  ghost predicate OnAir<O, E, M>(t: Seat<O, E, M>, f: State, k: RouteKey) {
    k in t.keys(t.at(f).m) ==> k in f.announced
  }

  /** ... and only then. */
  ghost predicate InTune<O, E, M>(t: Seat<O, E, M>, f: State, k: RouteKey) {
    k in t.keys(t.at(f).m) <==> k in f.announced
  }

  lemma HeardTunes(ks: set<RouteKey>, cs: seq<Call>, ks': set<RouteKey>, cs': seq<Call>, on: set<RouteKey>, k: RouteKey)
    requires OneChange(ks, cs, ks', cs')
    ensures (k in ks ==> k in on) ==> (k in ks' ==> k in Heard(on, cs, cs'))
    ensures (k in ks <==> k in on) ==> (k in ks' <==> k in Heard(on, cs, cs'))
  {
  }

  lemma StepTuned<O(!new), E(!new), M(!new)>(
    plan: Plan, t: Seat<O, E, M>, f: State, s: Convergence.Step<E, M>, k: RouteKey)
    requires Seated(plan, t) && ChangesOnce(t) && Parrot.Enabled(plan, f, t.step(s))
    ensures OnAir(t, f, k) ==> OnAir(t, Parrot.Apply(plan, f, t.step(s)), k)
    ensures InTune(t, f, k) ==> InTune(t, Parrot.Apply(plan, f, t.step(s)), k)
  {
    var p, p' := t.at(f), Convergence.Apply(t.c, t.at(f), s);
    SeatedStep(plan, t, f, s);
    assert StepChangesOnce(t, p, s);
    HeardTunes(t.keys(p.m), t.calls(p.m), t.keys(p'.m), t.calls(p'.m), f.announced, k);
  }

  /** While only one controller moves, the speaker follows its store. */
  lemma {:induction false} RunTuned<O(!new), E(!new), M(!new)>(
    plan: Plan, t: Seat<O, E, M>, f: State, ss: seq<Convergence.Step<E, M>>, k: RouteKey)
    requires Seated(plan, t) && ChangesOnce(t) && Runs.IsRun(Parrot.Steps(plan), f, Lifted(t, ss))
    ensures OnAir(t, f, k) ==> OnAir(t, Led(plan, t, f, ss), k)
    ensures InTune(t, f, k) ==> InTune(t, Led(plan, t, f, ss), k)
  {
    if ss != [] {
      LastLifted(plan, t, f, ss);
      RunTuned(plan, t, f, ss[..|ss| - 1], k);
      StepTuned(plan, t, Led(plan, t, f, ss[..|ss| - 1]), ss[|ss| - 1], k);
    }
  }

  /** Moves of the one do not touch the other. */
  ghost predicate Spares<O(!new), E, M(!new), O2, E2, M2>(t: Seat<O, E, M>, other: Seat<O2, E2, M2>) {
    forall f, p, x :: other.at(t.with(f, p, x)) == other.at(f)
  }

  lemma {:induction false} RunSpares<O(!new), E(!new), M(!new), O2(!new), E2(!new), M2(!new)>(
    plan: Plan, t: Seat<O, E, M>, other: Seat<O2, E2, M2>, f: State, ss: seq<Convergence.Step<E, M>>)
    requires Seated(plan, t) && Spares(t, other)
    ensures other.at(Led(plan, t, f, ss)) == other.at(f)
  {
    if ss != [] {
      LastLifted(plan, t, f, ss);
      RunSpares(plan, t, other, f, ss[..|ss| - 1]);
      SeatedStep(plan, t, Led(plan, t, f, ss[..|ss| - 1]), ss[|ss| - 1]);
    }
  }

  // Two controllers that hold the same route

  /** The controller can come to hold k. */
  ghost predicate Rises<O, E, M>(t: Seat<O, E, M>, up: seq<Convergence.Step<E, M>>, k: RouteKey) {
    Convergence.IsRun(t.c, up) && k in t.keys(Convergence.After(t.c, up).m) && k !in t.keys(t.c.idle)
  }

  /** ... and then to drop it. */
  ghost predicate Falls<O, E, M>(
    t: Seat<O, E, M>, up: seq<Convergence.Step<E, M>>, down: seq<Convergence.Step<E, M>>, k: RouteKey)
  {
    && Rises(t, up, k)
    && Convergence.IsRun(t.c, up + down) && k !in t.keys(Convergence.After(t.c, up + down).m)
  }

  ghost predicate Fit<O(!new), E(!new), M(!new)>(plan: Plan, t: Seat<O, E, M>) {
    Seated(plan, t) && ChangesOnce(t) && t.at(Start(plan)) == Hatch(t.c)
  }

  lemma RisesAmongOthers<O(!new), E(!new), M(!new)>(
    plan: Plan, t: Seat<O, E, M>, f: State, up: seq<Convergence.Step<E, M>>, k: RouteKey)
    requires Fit(plan, t) && Rises(t, up, k) && t.at(f) == Hatch(t.c)
    ensures var f' := Led(plan, t, f, up);
            && Runs.IsRun(Parrot.Steps(plan), f, Lifted(t, up))
            && t.at(f') == Convergence.After(t.c, up) && k in f'.announced
  {
    SeatRun(plan, t, f, up);
    RunTuned(plan, t, f, up, k);
  }

  lemma FallsAmongOthers<O(!new), E(!new), M(!new)>(
    plan: Plan, t: Seat<O, E, M>, f: State,
    up: seq<Convergence.Step<E, M>>, down: seq<Convergence.Step<E, M>>, k: RouteKey)
    requires Fit(plan, t) && Falls(t, up, down, k) && t.at(f) == Convergence.After(t.c, up) && k in f.announced
    ensures Runs.IsRun(Parrot.Steps(plan), f, Lifted(t, down)) && k !in Led(plan, t, f, down).announced
  {
    Runs.Suffix(Convergence.Steps(t.c), Hatch(t.c), up + down, |up|);
    assert (up + down)[..|up|] == up && (up + down)[|up|..] == down;
    SeatRun(plan, t, f, down);
    RunTuned(plan, t, f, down, k);
  }

  /** Both come to hold k, one drops it, and the speaker no longer announces what
      the other still holds. */
  lemma Clash<O(!new), E(!new), M(!new), O2(!new), E2(!new), M2(!new)>(
    plan: Plan, a: Seat<O, E, M>, b: Seat<O2, E2, M2>, k: RouteKey, upA: seq<Convergence.Step<E, M>>,
    up: seq<Convergence.Step<E2, M2>>, down: seq<Convergence.Step<E2, M2>>) returns (ss: seq<Parrot.Step>)
    requires Fit(plan, a) && Fit(plan, b) && Spares(a, b) && Spares(b, a)
    requires Rises(a, upA, k) && Falls(b, up, down, k)
    ensures Parrot.IsRun(plan, ss)
    ensures k in Parrot.After(plan, ss).Cached() && k !in Parrot.After(plan, ss).announced
  {
    var f0 := Start(plan);
    RisesAmongOthers(plan, a, f0, upA, k);
    RunSpares(plan, a, b, f0, upA);
    var f1 := Led(plan, a, f0, upA);
    RisesAmongOthers(plan, b, f1, up, k);
    RunSpares(plan, b, a, f1, up);
    var f2 := Led(plan, b, f1, up);
    FallsAmongOthers(plan, b, f2, up, down, k);
    RunSpares(plan, b, a, f2, down);
    var f3 := Led(plan, b, f2, down);
    SeatedStep(plan, a, f3, Finish);
    ss := Lifted(a, upA) + Lifted(b, up) + Lifted(b, down);
    Runs.Concat(Parrot.Steps(plan), f0, Lifted(a, upA), Lifted(b, up));
    Runs.Concat(Parrot.Steps(plan), f0, Lifted(a, upA) + Lifted(b, up), Lifted(b, down));
  }

  // The four controllers

  const SOME_NAME := ObjectKey("", "")

  /** Any route meant for a service can come up. */
  lemma ServiceRises(plan: Plan, k: RouteKey) returns (up: seq<ServicesStep>)
    requires plan.ForService(k)
    ensures Rises(ServicesSeat(plan), up, k)
  {
    var pod := Pod(ObjectKey(SYSTEM_NAMESPACE, PROXY_PREFIX), plan.host, true);
    up := EH.ServiceUp(plan.host, plan.ServicesRule(), SOME_NAME, k.prefix, pod);
    EH.RouteIsUp(plan.host, plan.ServicesRule(), SOME_NAME, k.prefix, pod, up);
  }

  /** A controller of one object store can announce a route and withdraw it. */
  lemma ObjectFalls<O(!new)>(t: Seat<OP.Objs<O>, Event<O>, OP.Pass<O>>, h: OC.Handling<O>, x: O)
    returns (up: seq<OC.ObjectStep<O>>, down: seq<OC.ObjectStep<O>>)
    requires ObjectSeat(t, h) && OC.Proper(h) && h.good(x)
    requires h.notice(Upsert(x)).effect == Admit && h.notice(Remove(x)).effect == Evict
    ensures Falls(t, up, down, h.d.keyOf(x))
  {
    up := OC.ObjectUp(h, x);
    OC.RouteIsUp(h, x, up);
    down := OC.ObjectDown(h, x, up);
  }

  lemma NodeFalls(plan: Plan, k: RouteKey) returns (up: seq<NodesStep>, down: seq<NodesStep>)
    requires plan.podRoutes(k)
    ensures Falls(NodesSeat(plan), up, down, k)
  {
    var n := Node(SOME_NAME, Some(Subnet(k.prefix, k.length)), k.nextHop);
    up, down := ObjectFalls(NodesSeat(plan), plan.NodesHandling(), n);
  }

  lemma SubnetFalls(plan: Plan) returns (up: seq<PodsStep>, down: seq<PodsStep>)
    ensures Falls(ProxiesSeat(plan), up, down, plan.SubnetRoute())
  {
    var pod := Pod(ObjectKey(SYSTEM_NAMESPACE, PROXY_PREFIX), plan.host, true);
    up, down := ObjectFalls(ProxiesSeat(plan), OC.ProxiesHandling(plan.subnet, plan.host), pod);
  }

  lemma MasterFalls(plan: Plan) returns (up: seq<PodsStep>, down: seq<PodsStep>)
    ensures Falls(MastersSeat(plan), up, down, plan.MasterRoute())
  {
    var pod := Pod(ObjectKey(SYSTEM_NAMESPACE, APISERVER_PREFIX), plan.host, true);
    up, down := ObjectFalls(MastersSeat(plan), OC.MastersHandling(plan.masterIP, plan.host), pod);
  }

  lemma AllFit(plan: Plan)
    ensures Fit(plan, ServicesSeat(plan)) && Fit(plan, NodesSeat(plan))
    ensures Fit(plan, ProxiesSeat(plan)) && Fit(plan, MastersSeat(plan))
  {
    AllChangeOnce(plan);
    ServicesAreSeated(plan);
    NodesAreSeated(plan);
    ProxiesAreSeated(plan);
    MastersAreSeated(plan);
  }

  /** After this run, the speaker does not announce exactly what the route stores
      hold. */
  ghost predicate Disagrees(plan: Plan, ss: seq<Parrot.Step>) {
    Parrot.IsRun(plan, ss) && Parrot.After(plan, ss).announced != Parrot.After(plan, ss).Cached()
  }

  lemma ServiceClashes(plan: Plan, k: RouteKey) returns (ss: seq<Parrot.Step>)
    requires plan.ForService(k) && (plan.podRoutes(k) || k == plan.SubnetRoute() || k == plan.MasterRoute())
    ensures Disagrees(plan, ss)
  {
    AllFit(plan);
    var upA := ServiceRises(plan, k);
    if plan.podRoutes(k) {
      var up, down := NodeFalls(plan, k);
      ss := Clash(plan, ServicesSeat(plan), NodesSeat(plan), k, upA, up, down);
    } else if k == plan.SubnetRoute() {
      var up, down := SubnetFalls(plan);
      ss := Clash(plan, ServicesSeat(plan), ProxiesSeat(plan), k, upA, up, down);
    } else {
      var up, down := MasterFalls(plan);
      ss := Clash(plan, ServicesSeat(plan), MastersSeat(plan), k, upA, up, down);
    }
  }

  lemma NodeClashes(plan: Plan, k: RouteKey) returns (ss: seq<Parrot.Step>)
    requires plan.podRoutes(k) && (k == plan.SubnetRoute() || k == plan.MasterRoute())
    ensures Disagrees(plan, ss)
  {
    AllFit(plan);
    var upA, _ := NodeFalls(plan, k);
    if k == plan.SubnetRoute() {
      var up, down := SubnetFalls(plan);
      ss := Clash(plan, NodesSeat(plan), ProxiesSeat(plan), k, upA, up, down);
    } else {
      var up, down := MasterFalls(plan);
      ss := Clash(plan, NodesSeat(plan), MastersSeat(plan), k, upA, up, down);
    }
  }

  lemma SubnetClashes(plan: Plan) returns (ss: seq<Parrot.Step>)
    requires plan.SubnetRoute() == plan.MasterRoute()
    ensures Disagrees(plan, ss)
  {
    AllFit(plan);
    var upA, _ := SubnetFalls(plan);
    var up, down := MasterFalls(plan);
    ss := Clash(plan, ProxiesSeat(plan), MastersSeat(plan), plan.MasterRoute(), upA, up, down);
  }

  lemma OverlapDisagrees(plan: Plan) returns (ss: seq<Parrot.Step>)
    requires !plan.Disjoint()
    ensures Disagrees(plan, ss)
  {
    if k :| plan.ForService(k) && plan.podRoutes(k) {
      ss := ServiceClashes(plan, k);
    } else if plan.ForService(plan.SubnetRoute()) {
      ss := ServiceClashes(plan, plan.SubnetRoute());
    } else if plan.ForService(plan.MasterRoute()) {
      ss := ServiceClashes(plan, plan.MasterRoute());
    } else if plan.podRoutes(plan.SubnetRoute()) {
      ss := NodeClashes(plan, plan.SubnetRoute());
    } else if plan.podRoutes(plan.MasterRoute()) {
      ss := NodeClashes(plan, plan.MasterRoute());
    } else {
      ss := SubnetClashes(plan);
    }
  }

  /** The speaker announces in every run exactly what the four route stores hold
      if and only if the plan gives no two controllers the same route. */
  lemma AgreesIffDisjoint(plan: Plan)
    ensures plan.Disjoint() <==>
            forall ss :: Parrot.IsRun(plan, ss) ==> Parrot.After(plan, ss).announced == Parrot.After(plan, ss).Cached()
  {
    if plan.Disjoint() {
      forall ss | Parrot.IsRun(plan, ss)
        ensures Parrot.After(plan, ss).announced == Parrot.After(plan, ss).Cached()
      {
        SpeakerMatchesStores(plan, ss);
      }
    } else {
      var ss := OverlapDisagrees(plan);
    }
  }
}
