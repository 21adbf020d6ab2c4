/** The whole program (`pkg/parrot/parrot.go`): four controllers, each with its
    own queue, worker and route store, on one BGP speaker, in every
    interleaving. */
module Parrot {
  import opened Routes
  import opened RouteStores
  import opened ClusterObjects
  import opened ExternalObjects
  import opened Controllers
  import opened Convergence
  import opened NeverStuck
  import RP = ReconcilePass
  import OP = ObjectPass
  import EC = ExternalConvergence
  import OC = ObjectConvergence
  import OR = ObjectRoutes
  import Runs

  type ServicesStep = Convergence.Step<ObjectEvent, RP.Pass>
  type NodesStep = Convergence.Step<Event<Node>, OP.Pass<Node>>
  type PodsStep = Convergence.Step<Event<Pod>, OP.Pass<Pod>>
  type PodsChain = Chain<OP.Objs<Pod>, OP.Pass<Pod>>

  /** The addresses of the cluster: of this host, the service subnet and the
      masters; those that services may have as first external IP, and the routes
      that nodes may have for their pods.  If `tidy`, a service or node takes a
      new one only when its old one is forgotten. */
  datatype Plan = Plan(
    host: IPv4, subnet: Subnet, masterIP: IPv4, externalIPs: IPv4 -> bool, podRoutes: RouteKey -> bool, tidy: bool)
  {
    predicate ForService(k: RouteKey) {
      externalIPs(k.prefix) && k.length == 32 && k.nextHop == host
    }

    function SubnetRoute(): RouteKey {
      RouteKey(subnet.ip, subnet.length, host)
    }

    function MasterRoute(): RouteKey {
      RouteKey(masterIP, 32, host)
    }

    /** No two controllers have a route in common. */
    ghost predicate Disjoint() {
      && (forall k :: ForService(k) ==> !podRoutes(k))
      && !ForService(SubnetRoute()) && !podRoutes(SubnetRoute())
      && !ForService(MasterRoute()) && !podRoutes(MasterRoute())
      && SubnetRoute() != MasterRoute()
    }

    function ServicesRule(): EC.Rule {
      EC.Rule((s: Service) => s.externalIPs != [] && externalIPs(s.externalIPs[0]), tidy)
    }

    function NodesHandling(): OC.Handling<Node> {
      OC.NodesHandling().(good := (n: Node) => n.podSubnet.Some? && podRoutes(OR.PodSubnetKey(n)), tidy := tidy)
    }

    ghost function Services(): Controller<Objects, ObjectEvent, RP.Pass> {
      EC.External(host, ServicesRule())
    }

    ghost function Nodes(): Controller<OP.Objs<Node>, Event<Node>, OP.Pass<Node>> {
      OC.Single(NodesHandling())
    }

    ghost function Proxies(): Controller<OP.Objs<Pod>, Event<Pod>, OP.Pass<Pod>> {
      OC.Single(OC.ProxiesHandling(subnet, host))
    }

    ghost function Masters(): Controller<OP.Objs<Pod>, Event<Pod>, OP.Pass<Pod>> {
      OC.Single(OC.MastersHandling(masterIP, host))
    }
  }

  datatype State = State(
    services: Chain<Objects, RP.Pass>,
    nodes: Chain<OP.Objs<Node>, OP.Pass<Node>>,
    proxies: PodsChain,
    masters: PodsChain,
    announced: set<RouteKey>)  // what the speaker announces
  {
    function ServiceKeys(): set<RouteKey> {
      services.m.store.routes.Keys
    }

    function NodeKeys(): set<RouteKey> {
      nodes.m.store.routes.Keys
    }

    function ProxyKeys(): set<RouteKey> {
      proxies.m.store.routes.Keys
    }

    function MasterKeys(): set<RouteKey> {
      masters.m.store.routes.Keys
    }

    /** What the four route stores hold. */
    function Cached(): set<RouteKey> {
      ServiceKeys() + NodeKeys() + ProxyKeys() + MasterKeys()
    }
  }

  ghost function Start(plan: Plan): State {
    State(Hatch(plan.Services()), Hatch(plan.Nodes()), Hatch(plan.Proxies()), Hatch(plan.Masters()), {})
  }

  /** A step of one of the controllers. */
  datatype Step = OfServices(e: ServicesStep) | OfNodes(n: NodesStep) | OfProxies(p: PodsStep) | OfMasters(a: PodsStep)

  /** The speaker has heard the one call, if any, by which `after` is longer. */
  function Heard(announced: set<RouteKey>, before: seq<Call>, after: seq<Call>): set<RouteKey> {
    if |after| <= |before| then announced
    else
      match after[|after| - 1]
      case Announce(k) => announced + {k}
      case Withdraw(k) => announced - {k}
  }

  ghost predicate Enabled(plan: Plan, f: State, s: Step) {
    match s
    case OfServices(e) => Convergence.Enabled(plan.Services(), f.services, e)
    case OfNodes(n) => Convergence.Enabled(plan.Nodes(), f.nodes, n)
    case OfProxies(p) => Convergence.Enabled(plan.Proxies(), f.proxies, p)
    case OfMasters(a) => Convergence.Enabled(plan.Masters(), f.masters, a)
  }

  ghost function Apply(plan: Plan, f: State, s: Step): State {
    match s
    case OfServices(e) =>
      var c := Convergence.Apply(plan.Services(), f.services, e);
      f.(services := c, announced := Heard(f.announced, f.services.m.store.calls, c.m.store.calls))
    case OfNodes(n) =>
      var c := Convergence.Apply(plan.Nodes(), f.nodes, n);
      f.(nodes := c, announced := Heard(f.announced, f.nodes.m.store.calls, c.m.store.calls))
    case OfProxies(p) =>
      var c := Convergence.Apply(plan.Proxies(), f.proxies, p);
      f.(proxies := c, announced := Heard(f.announced, f.proxies.m.store.calls, c.m.store.calls))
    case OfMasters(a) =>
      var c := Convergence.Apply(plan.Masters(), f.masters, a);
      f.(masters := c, announced := Heard(f.announced, f.masters.m.store.calls, c.m.store.calls))
  }

  ghost function Steps(plan: Plan): Runs.System<State, Step> {
    Runs.System((f, s) => Enabled(plan, f, s), (f, s) => Apply(plan, f, s))
  }

  ghost predicate IsRun(plan: Plan, ss: seq<Step>) {
    Runs.IsRun(Steps(plan), Start(plan), ss)
  }

  ghost function After(plan: Plan, ss: seq<Step>): State {
    Runs.After(Steps(plan), Start(plan), ss)
  }

  // Every controller keeps to itself

  /** What modules Convergence and NeverStuck prove of a controller's runs. */
  ghost predicate InOrder<O, E, M>(c: Controller<O, E, M>, p: Chain<O, M>) {
    Inv(c, p) && OnlyItem(p.pipe) && (p.pipe.closed ==> p.pipe.q.shuttingDown)
  }

  lemma StepKeepsInOrder<O(!new), E(!new), M(!new)>(c: Controller<O, E, M>, p: Chain<O, M>, s: Convergence.Step<E, M>)
    requires WellBehaved(c) && InOrder(c, p) && Convergence.Enabled(c, p, s)
    ensures InOrder(c, Convergence.Apply(c, p, s))
  {
    StepKeepsInv(c, p, s);
    StepKeepsOnlyItem(c, p, s);
    StepKeepsShutDown(c, p, s);
  }

  lemma HatchedInOrder<O(!new), E(!new), M(!new)>(c: Controller<O, E, M>)
    requires WellBehaved(c)
    ensures InOrder(c, Hatch(c))
  {
    RunKeepsInv(c, []);
    RunKeepsOnlyItem(c, []);
  }

  ghost predicate WellBehaved<O(!new), E(!new), M(!new)>(c: Controller<O, E, M>) {
    Lawful(c) && Terminating(c)
  }

  lemma ServicesBehave(plan: Plan)
    ensures WellBehaved(plan.Services())
  {
    EC.ExternalIsLawful(plan.host, plan.ServicesRule());
    EC.ExternalTerminates(plan.host, plan.ServicesRule());
  }

  lemma NodesBehave(plan: Plan)
    ensures WellBehaved(plan.Nodes())
  {
    OC.SingleIsLawful(plan.NodesHandling());
    OC.SingleTerminates(plan.NodesHandling());
  }

  lemma ProxiesBehave(plan: Plan)
    ensures WellBehaved(plan.Proxies())
  {
    OC.SingleIsLawful(OC.ProxiesHandling(plan.subnet, plan.host));
    OC.SingleTerminates(OC.ProxiesHandling(plan.subnet, plan.host));
  }

  lemma MastersBehave(plan: Plan)
    ensures WellBehaved(plan.Masters())
  {
    OC.SingleIsLawful(OC.MastersHandling(plan.masterIP, plan.host));
    OC.SingleTerminates(OC.MastersHandling(plan.masterIP, plan.host));
  }

  ghost predicate AllInOrder(plan: Plan, f: State) {
    && InOrder(plan.Services(), f.services) && InOrder(plan.Nodes(), f.nodes)
    && InOrder(plan.Proxies(), f.proxies) && InOrder(plan.Masters(), f.masters)
  }

  lemma StepKeepsAllInOrder(plan: Plan, f: State, s: Step)
    requires AllInOrder(plan, f) && Enabled(plan, f, s)
    ensures AllInOrder(plan, Apply(plan, f, s))
  {
    match s
    case OfServices(e) =>
      ServicesBehave(plan);
      StepKeepsInOrder(plan.Services(), f.services, e);
    case OfNodes(n) =>
      NodesBehave(plan);
      StepKeepsInOrder(plan.Nodes(), f.nodes, n);
    case OfProxies(p) =>
      ProxiesBehave(plan);
      StepKeepsInOrder(plan.Proxies(), f.proxies, p);
    case OfMasters(a) =>
      MastersBehave(plan);
      StepKeepsInOrder(plan.Masters(), f.masters, a);
  }

  // One controller among the others

  /** A controller's place in the whole: its chain and how to replace it, its
      steps, what its route store holds and has called, and what the others'
      hold. */
  datatype Seat<!O, !E, !M> = Seat(
    c: Controller<O, E, M>,
    at: State -> Chain<O, M>,
    with: (State, Chain<O, M>, set<RouteKey>) -> State,
    step: Convergence.Step<E, M> -> Step,
    keys: M -> set<RouteKey>,
    calls: M -> seq<Call>,
    others: State -> set<RouteKey>)

  /** The controller's step s is a step of the whole, changes nothing else, and is
      heard by the speaker. */
  ghost predicate StepSeated<O, E, M>(plan: Plan, t: Seat<O, E, M>, f: State, s: Convergence.Step<E, M>) {
    var p, p', f' := t.at(f), Convergence.Apply(t.c, t.at(f), s), Apply(plan, f, t.step(s));
    && Enabled(plan, f, t.step(s)) == Convergence.Enabled(t.c, p, s)
    && f' == t.with(f, p', Heard(f.announced, t.calls(p.m), t.calls(p'.m)))
    && t.at(f') == p' && f'.announced == Heard(f.announced, t.calls(p.m), t.calls(p'.m))
    && f.Cached() == t.keys(p.m) + t.others(f) && f'.Cached() == t.keys(p'.m) + t.others(f)
    && t.others(f') == t.others(f)
  }

  ghost predicate StepPlaced<O, E, M>(plan: Plan, t: Seat<O, E, M>, f: State, s: Convergence.Step<E, M>) {
    var p, p' := t.at(f), Convergence.Apply(t.c, t.at(f), s);
    && Enabled(plan, f, t.step(s)) == Convergence.Enabled(t.c, p, s)
    && Apply(plan, f, t.step(s)) == t.with(f, p', Heard(f.announced, t.calls(p.m), t.calls(p'.m)))
  }

  /** To replace the chain is to change nothing else. */
  ghost predicate Placed<O, E, M>(t: Seat<O, E, M>, f: State, p: Chain<O, M>, x: set<RouteKey>) {
    var f' := t.with(f, p, x);
    && t.at(f') == p && t.others(f') == t.others(f) && f'.announced == x
    && f.Cached() == t.keys(t.at(f).m) + t.others(f) && f'.Cached() == t.keys(p.m) + t.others(f)
  }

  ghost predicate Seated<O(!new), E(!new), M(!new)>(plan: Plan, t: Seat<O, E, M>) {
    && (forall f, s :: StepPlaced(plan, t, f, s))
    && (forall f, p, x :: Placed(t, f, p, x))
  }

  lemma SeatedStep<O(!new), E(!new), M(!new)>(plan: Plan, t: Seat<O, E, M>, f: State, s: Convergence.Step<E, M>)
    requires Seated(plan, t)
    ensures StepSeated(plan, t, f, s)
  {
    var p, p' := t.at(f), Convergence.Apply(t.c, t.at(f), s);
    assert StepPlaced(plan, t, f, s);
    assert Placed(t, f, p', Heard(f.announced, t.calls(p.m), t.calls(p'.m)));
  }

  /** One route more, one less, or no change. */
  ghost predicate OneChange(ks: set<RouteKey>, cs: seq<Call>, ks': set<RouteKey>, cs': seq<Call>) {
    || (ks' == ks && cs' == cs)
    || (exists k :: k !in ks && ks' == ks + {k} && cs' == cs + [Announce(k)])
    || (exists k :: k in ks && ks' == ks - {k} && cs' == cs + [Withdraw(k)])
  }

  ghost predicate StepChangesOnce<O, E, M>(t: Seat<O, E, M>, p: Chain<O, M>, s: Convergence.Step<E, M>) {
    var p' := Convergence.Apply(t.c, p, s); OneChange(t.keys(p.m), t.calls(p.m), t.keys(p'.m), t.calls(p'.m))
  }

  ghost predicate ChangesOnce<O(!new), E(!new), M(!new)>(t: Seat<O, E, M>) {
    forall p, s :: Convergence.Enabled(t.c, p, s) ==> StepChangesOnce(t, p, s)
  }

  ghost function ServicesSeat(plan: Plan): Seat<Objects, ObjectEvent, RP.Pass> {
    Seat(plan.Services(), (f: State) => f.services, (f: State, p, x) => f.(services := p, announced := x),
         e => OfServices(e), (m: RP.Pass) => m.store.routes.Keys, (m: RP.Pass) => m.store.calls,
         (f: State) => f.NodeKeys() + f.ProxyKeys() + f.MasterKeys())
  }

  ghost function NodesSeat(plan: Plan): Seat<OP.Objs<Node>, Event<Node>, OP.Pass<Node>> {
    Seat(plan.Nodes(), (f: State) => f.nodes, (f: State, p, x) => f.(nodes := p, announced := x),
         n => OfNodes(n), (m: OP.Pass<Node>) => m.store.routes.Keys, (m: OP.Pass<Node>) => m.store.calls,
         (f: State) => f.ServiceKeys() + f.ProxyKeys() + f.MasterKeys())
  }

  ghost function ProxiesSeat(plan: Plan): Seat<OP.Objs<Pod>, Event<Pod>, OP.Pass<Pod>> {
    Seat(plan.Proxies(), (f: State) => f.proxies, (f: State, p, x) => f.(proxies := p, announced := x),
         p => OfProxies(p), (m: OP.Pass<Pod>) => m.store.routes.Keys, (m: OP.Pass<Pod>) => m.store.calls,
         (f: State) => f.ServiceKeys() + f.NodeKeys() + f.MasterKeys())
  }

  ghost function MastersSeat(plan: Plan): Seat<OP.Objs<Pod>, Event<Pod>, OP.Pass<Pod>> {
    Seat(plan.Masters(), (f: State) => f.masters, (f: State, p, x) => f.(masters := p, announced := x),
         a => OfMasters(a), (m: OP.Pass<Pod>) => m.store.routes.Keys, (m: OP.Pass<Pod>) => m.store.calls,
         (f: State) => f.ServiceKeys() + f.NodeKeys() + f.ProxyKeys())
  }

  lemma Rearranged<T>(a: set<T>, b: set<T>, c: set<T>, d: set<T>)
    ensures a + b + c + d == a + (b + c + d) == b + (a + c + d) == c + (a + b + d) == d + (a + b + c)
  {
  }

  lemma CachedRearranged(f: State)
    ensures f.Cached() == f.ServiceKeys() + (f.NodeKeys() + f.ProxyKeys() + f.MasterKeys())
    ensures f.Cached() == f.NodeKeys() + (f.ServiceKeys() + f.ProxyKeys() + f.MasterKeys())
    ensures f.Cached() == f.ProxyKeys() + (f.ServiceKeys() + f.NodeKeys() + f.MasterKeys())
    ensures f.Cached() == f.MasterKeys() + (f.ServiceKeys() + f.NodeKeys() + f.ProxyKeys())
  {
    Rearranged(f.ServiceKeys(), f.NodeKeys(), f.ProxyKeys(), f.MasterKeys());
  }

  lemma ServicesAreSeated(plan: Plan)
    ensures Seated(plan, ServicesSeat(plan))
  {
    var t := ServicesSeat(plan);
    forall f, p, x
      ensures Placed(t, f, p, x)
    {
      CachedRearranged(f);
      CachedRearranged(t.with(f, p, x));
    }
  }

  lemma NodesAreSeated(plan: Plan)
    ensures Seated(plan, NodesSeat(plan))
  {
    var t := NodesSeat(plan);
    forall f, p, x
      ensures Placed(t, f, p, x)
    {
      CachedRearranged(f);
      CachedRearranged(t.with(f, p, x));
    }
  }

  lemma ProxiesAreSeated(plan: Plan)
    ensures Seated(plan, ProxiesSeat(plan))
  {
    var t := ProxiesSeat(plan);
    forall f, p, x
      ensures Placed(t, f, p, x)
    {
      CachedRearranged(f);
      CachedRearranged(t.with(f, p, x));
    }
  }

  lemma MastersAreSeated(plan: Plan)
    ensures Seated(plan, MastersSeat(plan))
  {
    var t := MastersSeat(plan);
    forall f, p, x
      ensures Placed(t, f, p, x)
    {
      CachedRearranged(f);
      CachedRearranged(t.with(f, p, x));
    }
  }

  lemma ServicesStepChangesOnce(plan: Plan, p: Chain<Objects, RP.Pass>, s: ServicesStep)
    requires Convergence.Enabled(plan.Services(), p, s)
    ensures StepChangesOnce(ServicesSeat(plan), p, s)
  {
    if s.Work? {
      ServicesPassChangesOnce(p.o, p.m, s.next);
    }
  }

  lemma ServicesChangeOnce(plan: Plan)
    ensures ChangesOnce(ServicesSeat(plan))
  {
    forall p, s | Convergence.Enabled(ServicesSeat(plan).c, p, s)
      ensures StepChangesOnce(ServicesSeat(plan), p, s)
    {
      ServicesStepChangesOnce(plan, p, s);
    }
  }

  lemma ServicesPassChangesOnce(o: Objects, m: RP.Pass, m': RP.Pass)
    requires RP.Step(o, m, m')
    ensures OneChange(m.store.routes.Keys, m.store.calls, m'.store.routes.Keys, m'.store.calls)
  {
    var r := RP.StepChangesStore(o, m, m');
    StoreChangesOnce(m.store, r.Key(), r);
  }

  lemma StoreChangesOnce<R>(s: Store<R>, k: RouteKey, r: R)
    ensures var s' := s.Add(k, r, true); OneChange(s.routes.Keys, s.calls, s'.routes.Keys, s'.calls)
    ensures var s' := s.Delete(k, true); OneChange(s.routes.Keys, s.calls, s'.routes.Keys, s'.calls)
  {
    assert s.Add(k, r, true).routes.Keys == s.routes.Keys + {k};
    assert s.Delete(k, true).routes.Keys == s.routes.Keys - {k};
  }

  lemma ObjectPassChangesOnce<O>(d: OP.Kind<O>, o: OP.Objs<O>, m: OP.Pass<O>, m': OP.Pass<O>)
    requires OP.Step(d, o, m, m')
    ensures OneChange(m.store.routes.Keys, m.store.calls, m'.store.routes.Keys, m'.store.calls)
  {
    if (m.pc.Sweep? || m.pc.Fill?) && m.pc.todo != [] {
      StoreChangesOnce(m.store, d.keyOf(m.pc.todo[0]), m.pc.todo[0]);
    }
  }

  /** The seat of a controller of one object store. */
  ghost predicate ObjectSeat<O(!new)>(t: Seat<OP.Objs<O>, Event<O>, OP.Pass<O>>, h: OC.Handling<O>) {
    && t.c == OC.Single(h)
    && (forall m: OP.Pass<O> :: t.keys(m) == m.store.routes.Keys && t.calls(m) == m.store.calls)
  }

  lemma ObjectsChangeOnce<O(!new)>(t: Seat<OP.Objs<O>, Event<O>, OP.Pass<O>>, h: OC.Handling<O>)
    requires ObjectSeat(t, h)
    ensures ChangesOnce(t)
  {
    forall p, s | Convergence.Enabled(t.c, p, s)
      ensures StepChangesOnce(t, p, s)
    {
      if s.Work? {
        ObjectPassChangesOnce(h.d, p.o, p.m, s.next);
      }
    }
  }

  lemma AllChangeOnce(plan: Plan)
    ensures ChangesOnce(ServicesSeat(plan)) && ChangesOnce(NodesSeat(plan))
    ensures ChangesOnce(ProxiesSeat(plan)) && ChangesOnce(MastersSeat(plan))
  {
    ServicesChangeOnce(plan);
    ObjectsChangeOnce(NodesSeat(plan), plan.NodesHandling());
    ObjectsChangeOnce(ProxiesSeat(plan), OC.ProxiesHandling(plan.subnet, plan.host));
    ObjectsChangeOnce(MastersSeat(plan), OC.MastersHandling(plan.masterIP, plan.host));
  }

  // The speaker follows the stores

  lemma SpeakerFollows(ks: set<RouteKey>, cs: seq<Call>, ks': set<RouteKey>, cs': seq<Call>, others: set<RouteKey>)
    requires OneChange(ks, cs, ks', cs') && ks !! others && ks' !! others
    ensures Heard(ks + others, cs, cs') == ks' + others
  {
  }

  /** Whichever controller's step it is, the speaker keeps in agreement, as long
      as the controller has no route in common with the others. */
  lemma StepFollowed<O(!new), E(!new), M(!new)>(plan: Plan, t: Seat<O, E, M>, f: State, s: Convergence.Step<E, M>)
    requires Seated(plan, t) && ChangesOnce(t) && Enabled(plan, f, t.step(s)) && f.announced == f.Cached()
    requires t.keys(t.at(f).m) !! t.others(f)
    requires var f' := Apply(plan, f, t.step(s)); t.keys(t.at(f').m) !! t.others(f')
    ensures var f' := Apply(plan, f, t.step(s)); f'.announced == f'.Cached()
  {
    var p, p' := t.at(f), Convergence.Apply(t.c, t.at(f), s);
    SeatedStep(plan, t, f, s);
    assert StepChangesOnce(t, p, s);
    SpeakerFollows(t.keys(p.m), t.calls(p.m), t.keys(p'.m), t.calls(p'.m), t.others(f));
  }

  /** The routes of a controller are those the plan gives it. */
  lemma ServicesKeepToPlan(plan: Plan, f: State)
    requires InOrder(plan.Services(), f.services)
    ensures forall k :: k in f.ServiceKeys() ==> plan.ForService(k)
  {
    var o, m := f.services.o, f.services.m;
    assert EC.Sound(plan.ServicesRule(), plan.host, o, m);
    forall k | k in f.ServiceKeys()
      ensures plan.ForService(k)
    {
      assert EC.Mentions(o, m, m.store.routes[k].service);
    }
  }

  lemma NodesKeepToPlan(plan: Plan, f: State)
    requires InOrder(plan.Nodes(), f.nodes)
    ensures forall k :: k in f.NodeKeys() ==> plan.podRoutes(k)
  {
    OC.AllGood(plan.NodesHandling(), f.nodes.o, f.nodes.m);
  }

  lemma PodsKeepToPlan(h: OC.Handling<Pod>, shared: RouteKey, p: PodsChain)
    requires forall q: Pod :: h.good(q) ==> h.d.keyOf(q) == shared
    requires InOrder(OC.Single(h), p)
    ensures forall k :: k in p.m.store.routes ==> k == shared
  {
    OC.AllGood(h, p.o, p.m);
  }

  ghost predicate StoresDisjoint(f: State) {
    && f.ServiceKeys() !! f.NodeKeys() && f.ServiceKeys() !! f.ProxyKeys() && f.ServiceKeys() !! f.MasterKeys()
    && f.NodeKeys() !! f.ProxyKeys() && f.NodeKeys() !! f.MasterKeys() && f.ProxyKeys() !! f.MasterKeys()
  }

  lemma StoresStayDisjoint(plan: Plan, f: State)
    requires plan.Disjoint() && AllInOrder(plan, f)
    ensures StoresDisjoint(f)
  {
    ServicesKeepToPlan(plan, f);
    NodesKeepToPlan(plan, f);
    PodsKeepToPlan(OC.ProxiesHandling(plan.subnet, plan.host), plan.SubnetRoute(), f.proxies);
    PodsKeepToPlan(OC.MastersHandling(plan.masterIP, plan.host), plan.MasterRoute(), f.masters);
  }

  lemma EveryStepFollowed(plan: Plan, f: State, s: Step)
    requires Enabled(plan, f, s) && f.announced == f.Cached() && StoresDisjoint(f) && StoresDisjoint(Apply(plan, f, s))
    ensures Apply(plan, f, s).announced == Apply(plan, f, s).Cached()
  {
    AllChangeOnce(plan);
    match s
    case OfServices(e) =>
      ServicesAreSeated(plan);
      StepFollowed(plan, ServicesSeat(plan), f, e);
    case OfNodes(n) =>
      NodesAreSeated(plan);
      StepFollowed(plan, NodesSeat(plan), f, n);
    case OfProxies(p) =>
      ProxiesAreSeated(plan);
      StepFollowed(plan, ProxiesSeat(plan), f, p);
    case OfMasters(a) =>
      MastersAreSeated(plan);
      StepFollowed(plan, MastersSeat(plan), f, a);
  }

  ghost predicate InStep(plan: Plan, f: State) {
    AllInOrder(plan, f) && StoresDisjoint(f) && f.announced == f.Cached()
  }

  lemma StepKeepsInStep(plan: Plan, f: State, s: Step)
    requires plan.Disjoint() && InStep(plan, f) && Enabled(plan, f, s)
    ensures InStep(plan, Apply(plan, f, s))
  {
    StepKeepsAllInOrder(plan, f, s);
    StoresStayDisjoint(plan, Apply(plan, f, s));
    EveryStepFollowed(plan, f, s);
  }

  lemma StartsInStep(plan: Plan)
    ensures InStep(plan, Start(plan))
  {
    var f := Start(plan);
    assert InOrder(plan.Services(), f.services) by {
      ServicesBehave(plan);
      HatchedInOrder(plan.Services());
    }
    assert InOrder(plan.Nodes(), f.nodes) by {
      NodesBehave(plan);
      HatchedInOrder(plan.Nodes());
    }
    assert InOrder(plan.Proxies(), f.proxies) by {
      ProxiesBehave(plan);
      HatchedInOrder(plan.Proxies());
    }
    assert InOrder(plan.Masters(), f.masters) by {
      MastersBehave(plan);
      HatchedInOrder(plan.Masters());
    }
  }

  /** In every run over a plan without overlaps, whatever services and nodes do
      with their addresses, the speaker announces exactly what the four route
      stores hold, and no two of them hold the same. */
  lemma {:induction false} SpeakerMatchesStores(plan: Plan, ss: seq<Step>)
    requires plan.Disjoint() && IsRun(plan, ss)
    ensures InStep(plan, After(plan, ss))
  {
    if ss == [] {
      StartsInStep(plan);
    } else {
      SpeakerMatchesStores(plan, ss[..|ss| - 1]);
      StepKeepsInStep(plan, After(plan, ss[..|ss| - 1]), ss[|ss| - 1]);
    }
  }

  // At rest

  predicate AtRest<O, M>(p: Chain<O, M>) {
    Quiescent(p) && !p.pipe.q.shuttingDown
  }

  /** What the cluster asks for: a route for each pair of an announced service
      and a proxy here, one for each annotated node, and one each for the
      service subnet and the master address if there is a pod for it. */
  ghost function Desired(plan: Plan, f: State): set<RouteKey> {
    f.services.o.Desired()
    + OR.PodSubnetRoutes(f.nodes.o)
    + (if f.proxies.o == map[] then {} else {plan.SubnetRoute()})
    + (if f.masters.o == map[] then {} else {plan.MasterRoute()})
  }

  lemma ServicesAtRest(plan: Plan, p: Chain<Objects, RP.Pass>)
    requires InOrder(plan.Services(), p) && AtRest(p) && plan.tidy
    ensures EC.Converged(p.o, p.m)
  {
    EC.SettledIsConverged(plan.ServicesRule(), plan.host, p.o, p.m);
  }

  lemma NodesAtRest(plan: Plan, p: Chain<OP.Objs<Node>, OP.Pass<Node>>)
    requires InOrder(plan.Nodes(), p) && AtRest(p) && plan.tidy
    ensures p.m.store.routes.Keys == OR.PodSubnetRoutes(p.o)
  {
    OC.SettledIsConverged(plan.NodesHandling(), p.o, p.m);
    OC.AllGood(plan.NodesHandling(), p.o, p.m);
    OR.DesiredAreSubnetRoutes(p.o);
  }

  lemma PodsAtRest(h: OC.Handling<Pod>, host: IPv4, shared: RouteKey, p: PodsChain)
    requires forall q: Pod :: h.good(q) <==> q.hostIP == host
    requires forall q: Pod :: q.hostIP == host ==> h.d.keyOf(q) == shared
    requires InOrder(OC.Single(h), p) && AtRest(p)
    ensures p.m.store.routes.Keys == if p.o == map[] then {} else {shared}
  {
    OC.AllGood(h, p.o, p.m);
    OR.SharedKeys(h.d, host, shared, p.o, p.m.store.routes);
  }

  predicate AllQuiet(f: State) {
    Quiescent(f.services) && Quiescent(f.nodes) && Quiescent(f.proxies) && Quiescent(f.masters)
  }

  predicate AllUp(f: State) {
    && !f.services.pipe.q.shuttingDown && !f.nodes.pipe.q.shuttingDown
    && !f.proxies.pipe.q.shuttingDown && !f.masters.pipe.q.shuttingDown
  }

  lemma QuietInStep(plan: Plan, f: State)
    requires InStep(plan, f) && AllQuiet(f) && AllUp(f) && plan.tidy
    ensures f.announced == Desired(plan, f)
  {
    ServicesAtRest(plan, f.services);
    NodesAtRest(plan, f.nodes);
    PodsAtRest(OC.ProxiesHandling(plan.subnet, plan.host), plan.host, plan.SubnetRoute(), f.proxies);
    PodsAtRest(OC.MastersHandling(plan.masterIP, plan.host), plan.host, plan.MasterRoute(), f.masters);
  }

  /** The program converges: over a tidy plan without overlaps, in every run,
      whenever all four controllers are at rest, the speaker announces exactly
      what the cluster asks for. */
  lemma QuietMeansConverged(plan: Plan, ss: seq<Step>)
    requires plan.Disjoint() && plan.tidy && IsRun(plan, ss)
    requires var f := After(plan, ss); AllQuiet(f) && AllUp(f)
    ensures var f := After(plan, ss); f.announced == Desired(plan, f)
  {
    SpeakerMatchesStores(plan, ss);
    QuietInStep(plan, After(plan, ss));
  }

  // It comes to rest

  /** Neither an event, nor a ShutDown, nor a failure. */
  ghost predicate CleanStep(plan: Plan, s: Step) {
    match s
    case OfServices(e) => Clean(plan.Services(), e)
    case OfNodes(n) => Clean(plan.Nodes(), n)
    case OfProxies(p) => Clean(plan.Proxies(), p)
    case OfMasters(a) => Clean(plan.Masters(), a)
  }

  /** What a controller has left to do, as module NeverStuck counts it. */
  datatype Rank = Rank(requeue: nat, way: nat, stage: nat, left: (nat, nat, nat))

  predicate Below(a: Rank, b: Rank) {
    if a.requeue != b.requeue then a.requeue < b.requeue
    else if a.way != b.way then a.way < b.way
    else if a.stage != b.stage then a.stage < b.stage
    else Less(a.left, b.left)
  }

  ghost function RankOf<O, E, M>(c: Controller<O, E, M>, p: Chain<O, M>): Rank {
    Rank(if MustRequeue(c, p) then 1 else 0, WayLeft(p), StageLeft(p.worker), c.left(p.m))
  }

  datatype Ranks = Ranks(a: Rank, b: Rank, c: Rank, d: Rank)

  ghost function RanksOf(plan: Plan, f: State): Ranks {
    Ranks(RankOf(plan.Services(), f.services), RankOf(plan.Nodes(), f.nodes),
          RankOf(plan.Proxies(), f.proxies), RankOf(plan.Masters(), f.masters))
  }

  /** One of the four is lower, and the others are the same. */
  predicate OneBelow(r': Ranks, r: Ranks) {
    || (Below(r'.a, r.a) && r' == r.(a := r'.a))
    || (Below(r'.b, r.b) && r' == r.(b := r'.b))
    || (Below(r'.c, r.c) && r' == r.(c := r'.c))
    || (Below(r'.d, r.d) && r' == r.(d := r'.d))
  }

  lemma CleanStepLowers<O(!new), E(!new), M(!new)>(c: Controller<O, E, M>, p: Chain<O, M>, s: Convergence.Step<E, M>)
    requires WellBehaved(c) && InOrder(c, p) && !p.pipe.q.shuttingDown
    requires Convergence.Enabled(c, p, s) && Clean(c, s)
    ensures var p' := Convergence.Apply(c, p, s); Below(RankOf(c, p'), RankOf(c, p)) && !p'.pipe.q.shuttingDown
  {
    CleanStepCloser(c, p, s);
  }

  lemma CleanStepLeavesLess(plan: Plan, f: State, s: Step)
    requires AllInOrder(plan, f) && AllUp(f) && Enabled(plan, f, s) && CleanStep(plan, s)
    ensures OneBelow(RanksOf(plan, Apply(plan, f, s)), RanksOf(plan, f)) && AllUp(Apply(plan, f, s))
  {
    match s
    case OfServices(e) =>
      ServicesBehave(plan);
      CleanStepLowers(plan.Services(), f.services, e);
    case OfNodes(n) =>
      NodesBehave(plan);
      CleanStepLowers(plan.Nodes(), f.nodes, n);
    case OfProxies(p) =>
      ProxiesBehave(plan);
      CleanStepLowers(plan.Proxies(), f.proxies, p);
    case OfMasters(a) =>
      MastersBehave(plan);
      CleanStepLowers(plan.Masters(), f.masters, a);
  }

  /** An endless schedule: at(i + 1) is reached from at(i) by the clean step
      via(i), whosesoever it is, as long as there is something to do. */
  ghost predicate Schedule(plan: Plan, at: nat -> State, via: nat -> Step) {
    forall i: nat :: AllQuiet(at(i)) || Takes(plan, at(i), via(i), at(i + 1))
  }

  ghost predicate Takes(plan: Plan, f: State, s: Step, f': State) {
    Enabled(plan, f, s) && CleanStep(plan, s) && f' == Apply(plan, f, s)
  }

  /** Four ranks of which always one descends come to an end. */
  lemma {:induction false} Descent(rank: nat -> Ranks, quiet: nat -> bool, ok: nat -> bool, i: nat) returns (n: nat)
    requires forall j: nat :: ok(j) && !quiet(j) ==> ok(j + 1) && OneBelow(rank(j + 1), rank(j))
    requires ok(i)
    ensures quiet(n) && ok(n)
    decreases rank(i).a.requeue, rank(i).a.way, rank(i).a.stage, rank(i).a.left.0, rank(i).a.left.1, rank(i).a.left.2,
              rank(i).b.requeue, rank(i).b.way, rank(i).b.stage, rank(i).b.left.0, rank(i).b.left.1, rank(i).b.left.2,
              rank(i).c.requeue, rank(i).c.way, rank(i).c.stage, rank(i).c.left.0, rank(i).c.left.1, rank(i).c.left.2,
              rank(i).d.requeue, rank(i).d.way, rank(i).d.stage, rank(i).d.left.0, rank(i).d.left.1, rank(i).d.left.2
  {
    if quiet(i) {
      n := i;
    } else {
      assert OneBelow(rank(i + 1), rank(i));
      n := Descent(rank, quiet, ok, i + 1);
    }
  }

  predicate SameObjects(f: State, f0: State) {
    && f.services.o == f0.services.o && f.nodes.o == f0.nodes.o
    && f.proxies.o == f0.proxies.o && f.masters.o == f0.masters.o
  }

  ghost predicate Going(plan: Plan, f0: State, f: State) {
    InStep(plan, f) && AllUp(f) && SameObjects(f, f0)
  }

  lemma CleanStepKeepsChainObjects<O, E, M>(c: Controller<O, E, M>, p: Chain<O, M>, s: Convergence.Step<E, M>)
    requires Clean(c, s)
    ensures Convergence.Apply(c, p, s).o == p.o
  {
  }

  lemma CleanStepKeepsObjects(plan: Plan, f: State, s: Step)
    requires CleanStep(plan, s)
    ensures SameObjects(Apply(plan, f, s), f)
  {
    match s
    case OfServices(e) => CleanStepKeepsChainObjects(plan.Services(), f.services, e);
    case OfNodes(n) => CleanStepKeepsChainObjects(plan.Nodes(), f.nodes, n);
    case OfProxies(p) => CleanStepKeepsChainObjects(plan.Proxies(), f.proxies, p);
    case OfMasters(a) => CleanStepKeepsChainObjects(plan.Masters(), f.masters, a);
  }

  lemma TakenStepDescends(plan: Plan, f0: State, f: State, s: Step, f': State)
    requires plan.Disjoint() && Going(plan, f0, f) && Takes(plan, f, s, f')
    ensures Going(plan, f0, f') && OneBelow(RanksOf(plan, f'), RanksOf(plan, f))
  {
    CleanStepLeavesLess(plan, f, s);
    CleanStepKeepsObjects(plan, f, s);
    StepKeepsInStep(plan, f, s);
  }

  lemma ScheduleDescends(plan: Plan, at: nat -> State, via: nat -> Step)
    requires plan.Disjoint() && Schedule(plan, at, via)
    ensures forall j: nat :: Going(plan, at(0), at(j)) && !AllQuiet(at(j)) ==>
              Going(plan, at(0), at(j + 1)) && OneBelow(RanksOf(plan, at(j + 1)), RanksOf(plan, at(j)))
  {
    forall j: nat | Going(plan, at(0), at(j)) && !AllQuiet(at(j))
      ensures Going(plan, at(0), at(j + 1)) && OneBelow(RanksOf(plan, at(j + 1)), RanksOf(plan, at(j)))
    {
      TakenStepDescends(plan, at(0), at(j), via(j), at(j + 1));
    }
  }

  lemma ComesToRest(plan: Plan, at: nat -> State, via: nat -> Step) returns (n: nat)
    requires plan.Disjoint() && Schedule(plan, at, via) && Going(plan, at(0), at(0))
    ensures AllQuiet(at(n)) && Going(plan, at(0), at(n))
  {
    ScheduleDescends(plan, at, via);
    n := Descent(
      (j: nat) => RanksOf(plan, at(j)), (j: nat) => AllQuiet(at(j)), (j: nat) => Going(plan, at(0), at(j)), 0);
  }

  lemma RestConverges(plan: Plan, f0: State, f: State)
    requires Going(plan, f0, f) && AllQuiet(f) && plan.tidy
    ensures f.announced == Desired(plan, f0)
  {
    QuietInStep(plan, f);
  }

  /** Convergence is inevitable: from wherever a run has come, once events and
      failures cease, every schedule whatever of the four controllers comes to
      a state in which the speaker announces exactly what the cluster asked for
      when they ceased. */
  lemma ConvergesInevitably(plan: Plan, ss: seq<Step>, at: nat -> State, via: nat -> Step) returns (n: nat)
    requires plan.Disjoint() && plan.tidy && IsRun(plan, ss)
    requires at(0) == After(plan, ss) && AllUp(at(0)) && Schedule(plan, at, via)
    ensures AllQuiet(at(n)) && at(n).announced == Desired(plan, at(0))
  {
    SpeakerMatchesStores(plan, ss);
    n := ComesToRest(plan, at, via);
    RestConverges(plan, at(0), at(n));
  }
}
