/** What is on the air for external services, in terms of the events and the
    sweeps of a run, and a run in which a route leaks
    (`pkg/controller/externalservices.go`). */
module ExternalHistory {
  import opened Routes
  import opened RouteStores
  import opened ClusterObjects
  import opened ExternalObjects
  import opened ReconcilePass
  import opened PassResults
  import opened Convergence
  import opened NeverStuck
  import opened ExternalConvergence
  import opened AirTime

  // Fills and sweeps

  /** The step from m to m' adds a wanted pair with the key k, or finds the key
      there already. */
  predicate Fills(o: Objects, m: Pass, m': Pass, k: RouteKey) {
    && m.pc.NextService? && m.pc.proxies != [] && m.pc.services != [] && !m'.pc.Failed?
    && m.pc.services[0].key in o.endpoints && Route(m.pc.services[0], m.pc.proxies[0]).Key() == k
  }

  /** The step from m to m' tests a listed route with the key k, finds its
      proxy, service or endpoints gone, and deletes it. */
  predicate Drops(o: Objects, m: Pass, m': Pass, k: RouteKey) {
    && m.pc.Sweep? && m.pc.todo != [] && !m'.pc.Failed?
    && m.pc.todo[0].Key() == k && !o.Passes(m.pc.todo[0], m.pc.check)
  }

  lemma StepDecides(o: Objects, m: Pass, m': Pass, k: RouteKey)
    requires ReconcilePass.Step(o, m, m')
    ensures k in m'.store.routes <==> Fills(o, m, m', k) || (k in m.store.routes && !Drops(o, m, m', k))
  {
  }

  ghost function ExternalAiring(): Airing<Objects, Pass> {
    Airing((m: Pass, k) => k in m.store.routes,
           (o, m, m', k) => Fills(o, m, m', k),
           (o, m, m', k) => Drops(o, m, m', k))
  }

  /** Step i added k for a wanted pair, and no sweep has found the proxy, the
      service or the endpoints gone since. */
  ghost predicate UpSince(host: IPv4, ss: seq<ExternalStep>, i: nat, k: RouteKey)
    requires i < |ss|
  {
    AirTime.UpSince(Plain(host), ExternalAiring(), ss, i, k)
  }

  lemma ExternalOnAirIff(host: IPv4, ss: seq<ExternalStep>, k: RouteKey)
    requires IsRun(Plain(host), ss)
    ensures k in After(Plain(host), ss).m.store.routes <==> exists i :: 0 <= i < |ss| && UpSince(host, ss, i, k)
  {
    var c, a := Plain(host), ExternalAiring();
    forall o, m, m', x | c.step(o, m, m')
      ensures a.up(m', x) == (a.fills(o, m, m', x) || (a.up(m, x) && !a.drops(o, m, m', x)))
    {
      StepDecides(o, m, m', x);
    }
    OnAirIff(c, a, ss, k);
    assert forall i :: 0 <= i < |ss| ==> UpSince(host, ss, i, k) == AirTime.UpSince(c, a, ss, i, k);
  }

  /** Some stored service with endpoints has this as its first external IP. */
  ghost predicate StillWanted(o: Objects, prefix: IPv4) {
    exists s :: s in o.services.Values && s.key in o.endpoints && s.externalIPs[0] == prefix
  }

  lemma PrefixDecides(o: Objects, host: IPv4, r: Route)
    requires o.Live(r) && r.proxy.hostIP == host && forall k :: k in o.proxies ==> o.proxies[k].hostIP == host
    ensures r.Key() in o.Desired() <==> StillWanted(o, r.Key().prefix)
  {
  }

  /** Whatever the services do: when all is quiet, the routes on the air are the
      desired ones just when every key that was filled, and that no sweep has
      found gone since, has a prefix that is still wanted.  A service that
      changes its address between two sweeps is what the sweeps do not see. */
  lemma QuietConvergedIff(host: IPv4, ss: seq<ExternalStep>)
    requires IsRun(Plain(host), ss) && !After(Plain(host), ss).pipe.q.shuttingDown && Quiescent(After(Plain(host), ss))
    ensures var p := After(Plain(host), ss);
            Converged(p.o, p.m) <==>
            forall i, k :: 0 <= i < |ss| && UpSince(host, ss, i, k) ==> StillWanted(p.o, k.prefix)
  {
    QuietMeansRoutesSettled(host, AnyRule(), ss);
    var p := After(Plain(host), ss);
    forall k
      ensures k in p.m.store.routes <==> exists i :: 0 <= i < |ss| && UpSince(host, ss, i, k)
    {
      ExternalOnAirIff(host, ss, k);
    }
    forall k | k in p.m.store.routes
      ensures k in p.o.Desired() <==> StillWanted(p.o, k.prefix)
    {
      PrefixDecides(p.o, host, p.m.store.routes[k]);
    }
  }

  // No call twice, while the handlers go on

  /** Since the worker's last fetch, at step i, no route was announced or
      withdrawn twice, whatever the handlers did meanwhile. */
  lemma {:induction false} NoCallTwiceInterleaved(host: IPv4, ss: seq<ExternalStep>, i: nat)
    requires IsRun(Plain(host), ss) && i < |ss| && ss[i].Fetch? && forall j :: i < j < |ss| ==> !ss[j].Fetch?
    ensures OnceEach(|After(Plain(host), ss[..i]).m.store.calls|, After(Plain(host), ss).m)
  {
    var n := |ss| - 1;
    Convergence.LastStep(Plain(host), ss);
    if i < n {
      assert ss[..n][..i] == ss[..i];
      NoCallTwiceInterleaved(host, ss[..n], i);
      var p := After(Plain(host), ss[..n]);
      if ss[n].Work? {
        StepKeepsOnceEach(p.o, |After(Plain(host), ss[..i]).m.store.calls|, p.m, ss[n].next);
      }
    }
  }

  // A leak

  /** The route k is live over the stores and filed as r. */
  ghost predicate LiveAs(host: IPv4, k: RouteKey, r: Route, o: Objects, m: Pass) {
    Sound(AnyRule(), host, o, m) && k in m.store.routes && m.store.routes[k] == r && o.Live(r)
  }

  lemma LiveStays(host: IPv4, k: RouteKey, r: Route, o: Objects, m: Pass, m': Pass)
    requires LiveAs(host, k, r, o, m) && ReconcilePass.Step(o, m, m')
    ensures LiveAs(host, k, r, o, m')
  {
    StepKeepsSound(AnyRule(), host, o, m, m');
  }

  lemma LiveAtBegin(host: IPv4, k: RouteKey, r: Route, o: Objects, m: Pass)
    requires LiveAs(host, k, r, o, m)
    ensures LiveAs(host, k, r, o, m.(pc := Begin))
  {
  }

  lemma LiveIsKept(host: IPv4, k: RouteKey, r: Route)
    ensures KeptByPass(Plain(host), (o, m) => LiveAs(host, k, r, o, m))
  {
    var c, kept := Plain(host), (o, m) => LiveAs(host, k, r, o, m);
    forall o, m | kept(o, m)
      ensures kept(o, c.begin(m))
    {
      LiveAtBegin(host, k, r, o, m);
    }
    forall o, m, m' | kept(o, m) && c.step(o, m, m')
      ensures kept(o, m')
    {
      LiveStays(host, k, r, o, m, m');
    }
  }

  lemma StaysSound(host: IPv4, ss: seq<ExternalStep>)
    requires IsRun(Plain(host), ss)
    ensures Sound(AnyRule(), host, After(Plain(host), ss).o, After(Plain(host), ss).m)
  {
    ExternalIsLawful(host, AnyRule());
    RunKeepsInv(Plain(host), ss);
  }

  lemma RestsWithRoute(host: IPv4, k: RouteKey, r: Route, ss: seq<ExternalStep>) returns (more: seq<ExternalStep>)
    requires IsRun(Plain(host), ss) && !After(Plain(host), ss).pipe.q.shuttingDown
    requires LiveAs(host, k, r, After(Plain(host), ss).o, After(Plain(host), ss).m)
    ensures AtRest(Plain(host), ss + more) && After(Plain(host), ss + more).o == After(Plain(host), ss).o
    ensures k in After(Plain(host), ss + more).m.store.routes
  {
    ExternalIsLawful(host, AnyRule());
    ExternalTerminates(host, AnyRule());
    LiveIsKept(host, k, r);
    more := ComesToRest(Plain(host), (o, m) => LiveAs(host, k, r, o, m), ss);
  }

  /** The stores of the example: one proxy, and one service with endpoints. */
  function Single(key: ObjectKey, ip: IPv4, pod: Pod): Objects {
    Objects(map[key := Service(key, [ip])], {key}, map[pod.key := pod])
  }

  lemma ObjectsAppear(host: IPv4, key: ObjectKey, ip: IPv4, pod: Pod)
    requires NamedLike(pod.key, PROXY_PREFIX) && pod.ready && pod.hostIP == host
    ensures var o1 := Handled(host, Objects(map[], {}, map[]), PodEvent(Upsert(pod)));
            var o2 := Handled(host, o1, ServiceEvent(Upsert(Service(key, [ip]))));
            Handled(host, o2, EndpointsEvent(Upsert(Endpoints(key, [1])))) == Single(key, ip, pod)
  {
    var e := Endpoints(key, [1]);
    assert e.addresses[0] > 0;
    assert HasReadyAddress(e);
  }

  /** Proxy, service and endpoints appear, and the chain comes to rest. */
  lemma ServiceUp(host: IPv4, rule: Rule, key: ObjectKey, ip: IPv4, pod: Pod) returns (ss: seq<ExternalStep>)
    requires NamedLike(pod.key, PROXY_PREFIX) && pod.ready && pod.hostIP == host && rule.good(Service(key, [ip]))
    ensures AtRest(External(host, rule), ss) && After(External(host, rule), ss).o == Single(key, ip, pod)
  {
    var c := External(host, rule);
    var e1, e2 := PodEvent(Upsert(pod)), ServiceEvent(Upsert(Service(key, [ip])));
    var e3 := EndpointsEvent(Upsert(Endpoints(key, [1])));
    EventComes(c, [], e1);
    EventComes(c, [] + [Handle(e1)], e2);
    EventComes(c, [] + [Handle(e1)] + [Handle(e2)], e3);
    ObjectsAppear(host, key, ip, pod);
    ss := [] + [Handle(e1)] + [Handle(e2)] + [Handle(e3)];
    ExternalIsLawful(host, rule);
    ExternalTerminates(host, rule);
    var more := ComesToRest(c, (o, m) => true, ss);
    ss := ss + more;
  }

  lemma RouteIsUp(host: IPv4, rule: Rule, key: ObjectKey, ip: IPv4, pod: Pod, ss: seq<ExternalStep>)
    requires AtRest(External(host, rule), ss) && pod.hostIP == host
    requires After(External(host, rule), ss).o == Single(key, ip, pod)
    ensures var p, k := After(External(host, rule), ss), RouteKey(ip, 32, host);
            k in p.m.store.routes && p.o.Live(p.m.store.routes[k])
  {
    QuietMeansRoutesSettled(host, rule, ss);
    var o := Single(key, ip, pod);
    assert o.services[key] in o.services.Values && o.proxies[pod.key] in o.proxies.Values;
    assert o.Wanted(Service(key, [ip]), pod);
    assert RouteKey(ip, 32, host) == Route(Service(key, [ip]), pod).Key();
  }

  lemma ServiceReplaced(host: IPv4, key: ObjectKey, before: IPv4, after: IPv4, pod: Pod)
    ensures var o1 := Handled(host, Single(key, before, pod), ServiceEvent(Remove(Service(key, [before]))));
            Handled(host, o1, ServiceEvent(Upsert(Service(key, [after])))) == Single(key, after, pod)
  {
  }

  /** The service is deleted and created anew with another address before the
      worker looks, and the chain comes to rest again: the old route stays, for
      its service is there by name. */
  lemma ServiceRecreated(host: IPv4, key: ObjectKey, before: IPv4, after: IPv4, pod: Pod, ss0: seq<ExternalStep>)
    returns (ss: seq<ExternalStep>)
    requires AtRest(Plain(host), ss0) && After(Plain(host), ss0).o == Single(key, before, pod) && pod.hostIP == host
    ensures AtRest(Plain(host), ss) && After(Plain(host), ss).o == Single(key, after, pod)
    ensures RouteKey(before, 32, host) in After(Plain(host), ss).m.store.routes
  {
    RouteIsUp(host, AnyRule(), key, before, pod, ss0);
    var k := RouteKey(before, 32, host);
    var r := After(Plain(host), ss0).m.store.routes[k];
    var e1, e2 := ServiceEvent(Remove(Service(key, [before]))), ServiceEvent(Upsert(Service(key, [after])));
    EventComes(Plain(host), ss0, e1);
    EventComes(Plain(host), ss0 + [Handle(e1)], e2);
    ServiceReplaced(host, key, before, after, pod);
    ss := ss0 + [Handle(e1)] + [Handle(e2)];
    StaysSound(host, ss);
    var more := RestsWithRoute(host, k, r, ss);
    ss := ss + more;
  }

  /** There is a run that comes to rest without converging: a service that is
      deleted and created anew with another address leaves its old route on the
      air. */
  lemma RouteLeaks(host: IPv4, key: ObjectKey, before: IPv4, after: IPv4, pod: Pod) returns (ss: seq<ExternalStep>)
    requires before != after && NamedLike(pod.key, PROXY_PREFIX) && pod.ready && pod.hostIP == host
    ensures AtRest(Plain(host), ss)
    ensures var p := After(Plain(host), ss);
            && p.o == Single(key, after, pod) && !Converged(p.o, p.m)
            && RouteKey(before, 32, host) in Outstanding(p.m.store.calls) - p.o.Desired()
  {
    var ss0 := ServiceUp(host, AnyRule(), key, before, pod);
    ss := ServiceRecreated(host, key, before, after, pod, ss0);
    QuietMeansRoutesSettled(host, AnyRule(), ss);
    var o := Single(key, after, pod);
    assert o.services.Values == {Service(key, [after])};
    assert forall k :: k in o.Desired() ==> k.prefix == after;
  }
}
