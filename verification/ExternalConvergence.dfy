/** The external-services controller (`pkg/controller/externalservices.go`) in
    the chain of module Convergence: it is a lawful controller, and so the
    announced routes follow the cluster. */
module ExternalConvergence {
  import opened Routes
  import opened RouteStores
  import opened ClusterObjects
  import opened ExternalObjects
  import opened Listings
  import opened ReconcilePass
  import opened PassResults
  import opened Controllers
  import opened Convergence

  type ExternalStep = Convergence.Step<ObjectEvent, Pass>

  // The controller

  /** What the pass still has to do: the loop it is in, and the rounds left. */
  function PassLeft(pc: Pc): (nat, nat, nat) {
    match pc
    case Begin => (4, 0, 0)
    case Sweep(todo, check) => (3, |todo|, if check <= 3 then 3 - check else 0)
    case NextProxy(ps) => (2, 2 * |ps| + 1, 0)
    case NextService(ps, ss) => (2, 2 * |ps|, |ss|)
    case Succeeded => (1, 0, 0)
    case Failed => (0, 0, 0)
  }

  predicate InRange(pc: Pc) {
    (pc.Sweep? ==> pc.check <= 2) && (pc.NextService? ==> pc.proxies != [])
  }

  /** What is assumed of the services seen: that they are `good`; and, if
      `tidy`, that none takes a new address before its old one is forgotten. */
  datatype Rule = Rule(good: Service -> bool, tidy: bool)

  /** The service is in the store, in the route store, or listed to be
      announced. */
  ghost predicate Mentions(o: Objects, m: Pass, s: AnnouncedService) {
    || s in o.services.Values
    || (exists k :: k in m.store.routes && m.store.routes[k].service == s)
    || (m.pc.NextService? && s in m.pc.services)
  }

  predicate SameAddress(a: AnnouncedService, b: AnnouncedService) {
    a.key == b.key ==> a.externalIPs[0] == b.externalIPs[0]
  }

  /** A service has one address, wherever it is mentioned. */
  ghost predicate Agree(o: Objects, m: Pass) {
    forall a, b :: Mentions(o, m, a) && Mentions(o, m, b) ==> SameAddress(a, b)
  }

  predicate Offers(e: ObjectEvent) {
    e.ServiceEvent? && e.service.Upsert? && e.service.obj.externalIPs != []
  }

  /** The event does not bring a service with a new address while an old one is
      still mentioned. */
  ghost predicate TidyEvent(o: Objects, m: Pass, e: ObjectEvent) {
    Offers(e) && e.service.obj.key !in o.services ==>
      forall a :: Mentions(o, m, a) ==> SameAddress(a, e.service.obj)
  }

  ghost predicate Allowed(rule: Rule, o: Objects, m: Pass, e: ObjectEvent) {
    (Offers(e) ==> rule.good(e.service.obj)) && (rule.tidy ==> TidyEvent(o, m, e))
  }

  ghost predicate Ruled(rule: Rule, o: Objects, m: Pass) {
    (forall s: AnnouncedService :: Mentions(o, m, s) ==> rule.good(s)) && (rule.tidy ==> Agree(o, m))
  }

  /** That proxies are on the host is the handlers' own doing. */
  ghost predicate OnHost(host: IPv4, o: Objects, m: Pass) {
    && (forall k :: k in o.proxies ==> o.proxies[k].hostIP == host)
    && (forall k :: k in m.store.routes ==> m.store.routes[k].proxy.hostIP == host)
    && (m.pc.NextProxy? || m.pc.NextService? ==> forall x :: x in m.pc.proxies ==> x.hostIP == host)
  }

  ghost predicate Sound(rule: Rule, host: IPv4, o: Objects, m: Pass) {
    o.Keyed() && Filed(m) && m.store.Consistent() && InRange(m.pc) && OnHost(host, o, m) && Ruled(rule, o, m)
  }

  /** The controller, on runs that keep to the rule. */
  ghost function External(host: IPv4, rule: Rule): Controller<Objects, ObjectEvent, Pass> {
    Controller(
      Objects(map[], {}, map[]),
      Pass(Begin, Store(map[], [])),
      (o, m, e) => Allowed(rule, o, m, e),
      (o, e) => Handled(host, o, e),
      (o, e) => WillCallDirty(host, o, e),
      (m: Pass) => m.(pc := Begin),
      (o, m, m') => ReconcilePass.Step(o, m, m'),
      (m: Pass) => m.pc.Succeeded?,
      (m: Pass) => m.pc.Failed?,
      (o, m) => Sound(rule, host, o, m),
      (o, m) => Progress(o, m),
      (o, m: Pass) => Settled(o, m.store.routes),
      (m: Pass) => PassLeft(m.pc))
  }

  // It is lawful

  lemma EventMentions(host: IPv4, o: Objects, e: ObjectEvent, m: Pass, s: AnnouncedService)
    requires Mentions(Handled(host, o, e), m, s)
    ensures Mentions(o, m, s) || (Offers(e) && s == e.service.obj && s.key !in o.services)
  {
  }

  lemma EventKeepsRuled(rule: Rule, host: IPv4, o: Objects, e: ObjectEvent, m: Pass)
    requires Ruled(rule, o, m) && Allowed(rule, o, m, e)
    ensures Ruled(rule, Handled(host, o, e), m)
  {
    forall s | Mentions(Handled(host, o, e), m, s)
      ensures Mentions(o, m, s) || (Offers(e) && s == e.service.obj && s.key !in o.services)
    {
      EventMentions(host, o, e, m, s);
    }
  }

  lemma EventKeepsSound(rule: Rule, host: IPv4, o: Objects, e: ObjectEvent, m: Pass)
    requires Sound(rule, host, o, m) && Allowed(rule, o, m, e)
    ensures Sound(rule, host, Handled(host, o, e), m)
  {
    EventKeepsRuled(rule, host, o, e, m);
  }

  lemma StepKeepsOnHost(host: IPv4, o: Objects, m: Pass, m': Pass)
    requires OnHost(host, o, m) && ReconcilePass.Step(o, m, m')
    ensures OnHost(host, o, m')
  {
    if m.pc.Sweep? && m.pc.todo == [] {
      ListedIffStored(m'.pc.proxies, o.proxies);
    }
  }

  /** A step of reconcile mentions no service that was not mentioned before. */
  lemma StepMentions(o: Objects, m: Pass, m': Pass, s: AnnouncedService)
    requires ReconcilePass.Step(o, m, m') && Mentions(o, m', s)
    ensures Mentions(o, m, s)
  {
    if m.pc.NextProxy? && m.pc.proxies != [] {
      ListedIffStored(m'.pc.services, o.services);
    }
  }

  lemma StepKeepsRuled(rule: Rule, o: Objects, m: Pass, m': Pass)
    requires Ruled(rule, o, m) && ReconcilePass.Step(o, m, m')
    ensures Ruled(rule, o, m')
  {
    forall s | Mentions(o, m', s)
      ensures Mentions(o, m, s)
    {
      StepMentions(o, m, m', s);
    }
  }

  lemma StepKeepsConsistent(o: Objects, m: Pass, m': Pass)
    requires m.store.Consistent() && ReconcilePass.Step(o, m, m')
    ensures m'.store.Consistent()
  {
    var r := StepChangesStore(o, m, m');
    StoreStaysConsistent(m.store, r.Key(), r, true);
  }

  lemma StepKeepsSound(rule: Rule, host: IPv4, o: Objects, m: Pass, m': Pass)
    requires Sound(rule, host, o, m) && ReconcilePass.Step(o, m, m')
    ensures Sound(rule, host, o, m')
  {
    StepKeepsFiled(o, m, m');
    StepKeepsConsistent(o, m, m');
    StepKeepsOnHost(host, o, m, m');
    StepKeepsRuled(rule, o, m, m');
  }

  lemma BeginKeepsSound(rule: Rule, host: IPv4, o: Objects, m: Pass)
    requires Sound(rule, host, o, m)
    ensures Sound(rule, host, o, m.(pc := Begin)) && Progress(o, m.(pc := Begin))
  {
    assert forall s :: Mentions(o, m.(pc := Begin), s) ==> Mentions(o, m, s);
  }

  lemma HandlersAreLawful(host: IPv4, rule: Rule)
    ensures HandlersLawful(External(host, rule))
  {
    var c := External(host, rule);
    forall o, e, m | c.sound(o, m) && c.allowed(o, m, e)
      ensures c.sound(c.handled(o, e), m)
    {
      EventKeepsSound(rule, host, o, e, m);
    }
  }

  lemma BeginIsLawful(host: IPv4, rule: Rule)
    ensures forall o, m :: Sound(rule, host, o, m) ==>
              Sound(rule, host, o, m.(pc := Begin)) && Progress(o, m.(pc := Begin))
  {
    forall o, m | Sound(rule, host, o, m)
      ensures Sound(rule, host, o, m.(pc := Begin)) && Progress(o, m.(pc := Begin))
    {
      BeginKeepsSound(rule, host, o, m);
    }
  }

  lemma StepIsLawful(host: IPv4, rule: Rule)
    ensures forall o, m, m' :: Sound(rule, host, o, m) && ReconcilePass.Step(o, m, m') ==>
              Sound(rule, host, o, m') && (Progress(o, m) ==> Progress(o, m'))
  {
    forall o, m, m' | Sound(rule, host, o, m) && ReconcilePass.Step(o, m, m')
      ensures Sound(rule, host, o, m') && (Progress(o, m) ==> Progress(o, m'))
    {
      StepKeepsSound(rule, host, o, m, m');
      if Progress(o, m) {
        StepKeepsProgress(o, m, m');
      }
    }
  }

  lemma PassIsKept(host: IPv4, rule: Rule)
    ensures PassKeeps(External(host, rule))
  {
    BeginIsLawful(host, rule);
    StepIsLawful(host, rule);
  }

  lemma PassDoesEnd(host: IPv4, rule: Rule)
    ensures PassEnds(External(host, rule))
  {
  }

  lemma ExternalIsLawful(host: IPv4, rule: Rule)
    ensures Lawful(External(host, rule))
  {
    HandlersAreLawful(host, rule);
    PassIsKept(host, rule);
    PassDoesEnd(host, rule);
  }

  // It terminates

  lemma PassCanGoOn(o: Objects, m: Pass) returns (m': Pass)
    requires !m.pc.Succeeded? && !m.pc.Failed? && InRange(m.pc)
    ensures ReconcilePass.Step(o, m, m') && !m'.pc.Failed?
  {
    match m.pc
    case Begin =>
      var l := SetListing(m.store.routes.Values);
      m' := m.(pc := Sweep(l, 0));
    case Sweep(todo, check) =>
      if todo == [] {
        var l := SetListing(o.proxies.Values);
        m' := m.(pc := NextProxy(l));
      } else {
        var next := if check < 2 then Sweep(todo, check + 1) else Sweep(todo[1..], 0);
        m' := if o.Passes(todo[0], check) then m.(pc := next) else Withdrawing(m, todo[0], next, true);
      }
    case NextProxy(ps) =>
      if ps == [] {
        m' := m.(pc := Succeeded);
      } else {
        var l := SetListing(o.services.Values);
        m' := m.(pc := NextService(ps, l));
      }
    case NextService(ps, ss) =>
      if ss == [] {
        m' := m.(pc := NextProxy(ps[1..]));
      } else {
        var next := NextService(ps, ss[1..]);
        m' := if ss[0].key !in o.endpoints then m.(pc := next) else Announcing(m, Route(ss[0], ps[0]), next, true);
      }
  }

  lemma PassStepShrinks(o: Objects, m: Pass, m': Pass)
    requires ReconcilePass.Step(o, m, m') && !m'.pc.Failed? && InRange(m.pc)
    ensures Less(PassLeft(m'.pc), PassLeft(m.pc))
  {
  }

  lemma ExternalTerminates(host: IPv4, rule: Rule)
    ensures Terminating(External(host, rule))
  {
    var c := External(host, rule);
    forall o, m | c.sound(o, m) && !c.succeeded(m) && !c.failed(m)
      ensures exists m' :: c.step(o, m, m') && !c.failed(m')
    {
      var m' := PassCanGoOn(o, m);
      assert c.step(o, m, m') && !c.failed(m');
    }
    forall o, m, m' | c.sound(o, m) && c.step(o, m, m') && !c.failed(m')
      ensures Less(c.left(m'), c.left(m))
    {
      PassStepShrinks(o, m, m');
    }
  }

  // Runs

  /** Anything may happen. */
  ghost function AnyRule(): Rule {
    Rule(s => true, false)
  }

  /** The controller on all runs. */
  ghost function Plain(host: IPv4): Controller<Objects, ObjectEvent, Pass> {
    External(host, AnyRule())
  }

  /** Every event keeps to the rule at the point where it comes. */
  ghost predicate Abides(host: IPv4, rule: Rule, ss: seq<ExternalStep>) {
    forall i :: 0 <= i < |ss| && ss[i].Handle? ==>
      var p := After(Plain(host), ss[..i]); Allowed(rule, p.o, p.m, ss[i].e)
  }

  lemma AbidesSoFar(host: IPv4, rule: Rule, ss: seq<ExternalStep>)
    requires ss != [] && Abides(host, rule, ss)
    ensures Abides(host, rule, ss[..|ss| - 1])
  {
    assert forall i :: 0 <= i < |ss| - 1 ==> ss[..|ss| - 1][..i] == ss[..i];
  }

  lemma {:induction false} RuledRun(host: IPv4, rule: Rule, ss: seq<ExternalStep>)
    requires IsRun(Plain(host), ss) && Abides(host, rule, ss)
    ensures IsRun(External(host, rule), ss) && After(External(host, rule), ss) == After(Plain(host), ss)
  {
    if ss != [] {
      var n := |ss| - 1;
      Convergence.LastStep(Plain(host), ss);
      Convergence.LastStep(External(host, rule), ss);
      AbidesSoFar(host, rule, ss);
      RuledRun(host, rule, ss[..n]);
    }
  }

  /** In every run up to ShutDown, whenever all is quiet, every wanted route is
      announced, and every announced route has its own proxy, service and
      endpoints still in the stores. */
  lemma QuietMeansRoutesSettled(host: IPv4, rule: Rule, ss: seq<ExternalStep>)
    requires var p := After(External(host, rule), ss);
             IsRun(External(host, rule), ss) && !p.pipe.q.shuttingDown && Quiescent(p)
    ensures var p := After(External(host, rule), ss);
            && p.worker.Idle? && Settled(p.o, p.m.store.routes) && Sound(rule, host, p.o, p.m)
            && p.o.Desired() <= Outstanding(p.m.store.calls) == p.m.store.routes.Keys
  {
    ExternalIsLawful(host, rule);
    QuietMeansSettled(External(host, rule), ss);
    var p := After(External(host, rule), ss);
    DesiredAnnounced(p.o, p.m.store.routes);
  }

  /** What the controller has on the air, what its route store holds and what
      its object stores ask for are the same. */
  ghost predicate Converged(o: Objects, m: Pass) {
    Outstanding(m.store.calls) == m.store.routes.Keys == o.Desired()
  }

  lemma SettledIsConverged(rule: Rule, host: IPv4, o: Objects, m: Pass)
    requires Sound(rule, host, o, m) && Agree(o, m) && Settled(o, m.store.routes)
    ensures Converged(o, m)
  {
    DesiredAnnounced(o, m.store.routes);
    forall k | k in m.store.routes
      ensures SameAddress(m.store.routes[k].service, o.services[m.store.routes[k].service.key])
    {
      var s := m.store.routes[k].service;
      assert o.services[s.key] in o.services.Values;
      assert Mentions(o, m, s) && Mentions(o, m, o.services[s.key]);
    }
    StableLiveKeysAreDesired(o, m.store.routes);
    assert o.LiveKeys(m.store.routes) == m.store.routes.Keys;
  }

  lemma RuledRunConverges(host: IPv4, rule: Rule, ss: seq<ExternalStep>)
    requires IsRun(Plain(host), ss) && Abides(host, rule, ss)
    requires !After(Plain(host), ss).pipe.q.shuttingDown && Quiescent(After(Plain(host), ss))
    requires forall o, m :: Ruled(rule, o, m) ==> Agree(o, m)
    ensures Converged(After(Plain(host), ss).o, After(Plain(host), ss).m)
  {
    RuledRun(host, rule, ss);
    QuietMeansRoutesSettled(host, rule, ss);
    SettledIsConverged(rule, host, After(Plain(host), ss).o, After(Plain(host), ss).m);
  }

  /** End to end: if a service takes a new first external IP only when the object
      store, the route store and the worker's listing no longer mention it, for
      example after a delete that has come to rest, then in every run up to
      ShutDown, whenever all is quiet, the routes on the air are exactly the
      desired ones. */
  lemma QuietMeansConverged(host: IPv4, ss: seq<ExternalStep>)
    requires IsRun(Plain(host), ss) && Abides(host, Rule(s => true, true), ss)
    requires !After(Plain(host), ss).pipe.q.shuttingDown && Quiescent(After(Plain(host), ss))
    ensures Converged(After(Plain(host), ss).o, After(Plain(host), ss).m)
  {
    RuledRunConverges(host, Rule(s => true, true), ss);
  }

  /** Whatever was deleted before a rest is forgotten: any service of that name
      may come. */
  lemma RestForgets(host: IPv4, ss: seq<ExternalStep>, s: Service)
    requires IsRun(Plain(host), ss) && !After(Plain(host), ss).pipe.q.shuttingDown && Quiescent(After(Plain(host), ss))
    requires s.key !in After(Plain(host), ss).o.services
    ensures TidyEvent(After(Plain(host), ss).o, After(Plain(host), ss).m, ServiceEvent(Upsert(s)))
  {
    QuietMeansRoutesSettled(host, AnyRule(), ss);
    PassHasEnded(Plain(host), ss);
    var p := After(Plain(host), ss);
    assert forall a: AnnouncedService :: Mentions(p.o, p.m, a) ==> a.key in p.o.services;
  }

  /** The first external IP of the service is the one `ip` tells of its key. */
  predicate Conforms(ip: ObjectKey -> IPv4, s: Service) {
    s.externalIPs != [] && s.externalIPs[0] == ip(s.key)
  }

  /** In particular if no service ever changes its first external IP. */
  lemma StableMeansConverged(ip: ObjectKey -> IPv4, host: IPv4, ss: seq<ExternalStep>)
    requires IsRun(Plain(host), ss)
    requires forall i :: 0 <= i < |ss| && ss[i].Handle? && Offers(ss[i].e) ==> Conforms(ip, ss[i].e.service.obj)
    requires !After(Plain(host), ss).pipe.q.shuttingDown && Quiescent(After(Plain(host), ss))
    ensures Converged(After(Plain(host), ss).o, After(Plain(host), ss).m)
  {
    RuledRunConverges(host, Rule(s => Conforms(ip, s), false), ss);
  }
}
