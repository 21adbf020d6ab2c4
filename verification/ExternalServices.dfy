/** The controller of `pkg/controller/externalservices.go`: event handlers that
    keep three object stores, and the reconcile function that brings the
    announced routes in line with them. */
module ExternalServices {
  import opened Prelude
  import opened Routes
  import opened RouteStores
  import opened ClusterObjects
  import opened ExternalObjects
  import opened Listings
  import opened ReconcilePass
  import opened PassResults
  import Runs

  /** Every service with endpoints has its first external IP announced via every
      proxy. */
  ghost predicate EveryPairUp(
    services: map<ObjectKey, AnnouncedService>, endpoints: set<ObjectKey>, proxies: map<ObjectKey, Pod>,
    routes: map<RouteKey, Route>)
  {
    forall i, j :: i in services && services[i].key in endpoints && j in proxies ==>
      RouteKey(services[i].externalIPs[0], 32, proxies[j].hostIP) in routes
  }

  /** Every route is under its own key, and its proxy, service and endpoints are
      there. */
  ghost predicate NothingStale(
    services: map<ObjectKey, AnnouncedService>, endpoints: set<ObjectKey>, proxies: map<ObjectKey, Pod>,
    routes: map<RouteKey, Route>)
  {
    forall k :: k in routes ==>
      var s, p := routes[k].service, routes[k].proxy;
      && s.key in services && s.key in endpoints && p.key in proxies
      && k == RouteKey(s.externalIPs[0], 32, p.hostIP)
  }

  lemma SettledMeans(o: Objects, routes: map<RouteKey, Route>)
    requires Settled(o, routes) && forall k :: k in routes ==> routes[k].Key() == k
    ensures EveryPairUp(o.services, o.endpoints, o.proxies, routes)
    ensures NothingStale(o.services, o.endpoints, o.proxies, routes)
  {
    forall i, j | i in o.services && o.services[i].key in o.endpoints && j in o.proxies
      ensures RouteKey(o.services[i].externalIPs[0], 32, o.proxies[j].hostIP) in routes
    {
      assert o.services[i] in o.services.Values && o.proxies[j] in o.proxies.Values;
      assert o.Wanted(o.services[i], o.proxies[j]);
      assert Route(o.services[i], o.proxies[j]).Key() in routes;
    }
  }

  /** What a pass that has ended achieves. */
  lemma PassAchieves(o: Objects, start: Store<Route>, ms: seq<Pass>, ok: bool, s: Store<Route>)
    requires o.Keyed() && WellFiled(start) && Reaches(o, start, ms, Pass(if ok then Succeeded else Failed, s))
    ensures PassLeads(o, start, if ok then Succeeded else Failed, s)
    ensures ok ==> s.routes.Keys == o.Desired() + o.LiveKeys(start.routes)
    ensures ok && AttributesStable(o, start.routes) ==> s.routes.Keys == o.Desired()
    ensures ok ==> EveryPairUp(o.services, o.endpoints, o.proxies, s.routes)
    ensures ok ==> NothingStale(o.services, o.endpoints, o.proxies, s.routes)
    ensures Between(o, start.routes, s.routes)
    ensures |start.calls| <= |s.calls| && NoDuplicates(s.calls[|start.calls|..])
  {
    var end := Pass(if ok then Succeeded else Failed, s);
    ReachedStates(o, start, ms, end);
    NoCallTwice(o, start, ms, end);
    if ok {
      SuccessfulPass(o, start, ms, end);
      SettledMeans(o, s.routes);
      if AttributesStable(o, start.routes) {
        SuccessfulPassStable(o, start, ms, end);
      }
    }
  }

  class ExternalServicesController {
    const host: IPv4
    const routes: RoutesStore<Route>
    var services: map<ObjectKey, AnnouncedService>
    var endpoints: map<ObjectKey, Endpoints>
    var proxies: map<ObjectKey, Pod>
    // The number of calls of reconciler.Dirty.
    var dirtied: nat

    ghost function Stored(): Objects
      reads this
    {
      Objects(services, endpoints.Keys, proxies)
    }

    ghost predicate Valid()
      reads this, routes
    {
      && Stored().Keyed()
      && routes.Valid()
      && (forall r: Route :: routes.keyOf(r) == r.Key())
    }

    constructor (host: IPv4, server: Server)
      ensures Valid() && Stored() == Objects(map[], {}, map[]) && dirtied == 0
      ensures this.host == host && fresh(routes) && routes.server == server
      ensures routes.View() == Store(map[], [])
    {
      this.host := host;
      routes := new RoutesStore(server, (r: Route) => r.Key());
      services, endpoints, proxies, dirtied := map[], map[], map[], 0;
    }

    // Handlers: the stores move as the step system of module
    // ExternalConvergence says, and so do the calls of Dirty.

    /** The handler of `e` has run. */
    twostate predicate Handles(e: ObjectEvent)
      reads this
    {
      && Stored() == Handled(host, old(Stored()), e)
      && dirtied == old(dirtied) + if WillCallDirty(host, old(Stored()), e) then 1 else 0
    }

    method PodDelete(pod: Pod)
      requires Valid()
      modifies this`proxies, this`dirtied
      ensures Valid() && Handles(PodEvent(Remove(pod)))
      ensures proxies == Note(old(proxies), PodNotice(PROXY_PREFIX, host, Remove(pod)))
      ensures proxies == old(proxies) - {pod.key}
      ensures dirtied > old(dirtied) <==> proxies.Keys != old(proxies.Keys)
    {
      if pod.key in proxies {
        proxies := proxies - {pod.key};
        dirtied := dirtied + 1;
      } else {
        assert proxies - {pod.key} == proxies;
      }
    }

    method PodAdd(pod: Pod)
      requires Valid()
      modifies this`proxies, this`dirtied
      ensures Valid() && Handles(PodEvent(Upsert(pod)))
      ensures proxies == Note(old(proxies), PodNotice(PROXY_PREFIX, host, Upsert(pod)))
      ensures PROXY_PREFIX <= pod.key.name && pod.key.namespace == SYSTEM_NAMESPACE && pod.hostIP == host ==>
                (pod.key in proxies <==> pod.ready) && proxies - {pod.key} == old(proxies) - {pod.key}
      ensures !(PROXY_PREFIX <= pod.key.name && pod.key.namespace == SYSTEM_NAMESPACE && pod.hostIP == host) ==>
                proxies == old(proxies) && dirtied == old(dirtied)
      ensures dirtied > old(dirtied) <==> proxies.Keys != old(proxies.Keys)
    {
      if !(PROXY_PREFIX <= pod.key.name) || pod.key.namespace != SYSTEM_NAMESPACE {
        return;
      }
      if pod.hostIP != host {
        return;
      }
      if pod.ready {
        if pod.key !in proxies {
          proxies := proxies[pod.key := pod];
          dirtied := dirtied + 1;
        }
      } else if pod.key in proxies {
        proxies := proxies - {pod.key};
        dirtied := dirtied + 1;
      } else {
        assert proxies - {pod.key} == proxies;
      }
    }

    method ServiceDelete(service: Service)
      requires Valid()
      modifies this`services, this`dirtied
      ensures Valid() && Handles(ServiceEvent(Remove(service)))
      ensures services == Note(old(services), ServiceNotice(Remove(service)))
      ensures services == old(services) - {service.key} && dirtied == old(dirtied) + 1
    {
      services := services - {service.key};
      dirtied := dirtied + 1;
    }

    method ServiceAdd(service: Service)
      requires Valid()
      modifies this`services, this`dirtied
      ensures Valid() && Handles(ServiceEvent(Upsert(service)))
      ensures services == Note(old(services), ServiceNotice(Upsert(service)))
      ensures services == if service.externalIPs == [] || service.key in old(services) then old(services)
                          else old(services)[service.key := service]
      ensures dirtied > old(dirtied) <==> services.Keys != old(services.Keys)
    {
      if |service.externalIPs| == 0 {
        return;
      }
      if service.key !in services {
        services := services[service.key := service];
        dirtied := dirtied + 1;
      }
    }

    method EndpointsDelete(e: Endpoints)
      requires Valid()
      modifies this`endpoints, this`dirtied
      ensures Valid() && Handles(EndpointsEvent(Remove(e)))
      ensures endpoints == Note(old(endpoints), EndpointsNotice(Remove(e)))
      ensures endpoints == old(endpoints) - {e.key}
      ensures dirtied > old(dirtied) <==> endpoints.Keys != old(endpoints.Keys)
    {
      NoteKeyIsKeysOfNote(endpoints, EndpointsNotice(Remove(e)));
      if e.key in endpoints {
        endpoints := endpoints - {e.key};
        dirtied := dirtied + 1;
      } else {
        assert endpoints - {e.key} == endpoints;
      }
    }

    method EndpointsAdd(e: Endpoints)
      requires Valid()
      modifies this`endpoints, this`dirtied
      ensures Valid() && Handles(EndpointsEvent(Upsert(e)))
      ensures endpoints == Note(old(endpoints), EndpointsNotice(Upsert(e)))
      ensures e.key in endpoints <==> exists i :: 0 <= i < |e.addresses| && e.addresses[i] > 0
      ensures endpoints - {e.key} == old(endpoints) - {e.key}
      ensures dirtied > old(dirtied) <==> endpoints.Keys != old(endpoints.Keys)
    {
      NoteKeyIsKeysOfNote(endpoints, EndpointsNotice(Upsert(e)));
      var ready := false;
      for i := 0 to |e.addresses|
        invariant !ready && forall j :: 0 <= j < i ==> e.addresses[j] == 0
      {
        if e.addresses[i] > 0 {
          ready := true;
          break;
        }
      }
      if ready {
        if e.key !in endpoints {
          endpoints := endpoints[e.key := e];
          dirtied := dirtied + 1;
        }
      } else if e.key in endpoints {
        endpoints := endpoints - {e.key};
        dirtied := dirtied + 1;
      } else {
        assert endpoints - {e.key} == endpoints;
      }
    }

    // Reconcile

    /** The machine has run from the state at the start to `pc`. */
    ghost predicate At(start: Store<Route>, ms: seq<Pass>, pc: Pc)
      reads this, routes
    {
      Valid() && Reaches(Stored(), start, ms, Pass(pc, routes.View()))
    }

    /** The pass is a run of the machine.  On success the keys are those that
        are desired and those of old routes still live; in any case a route is
        announced and withdrawn at most once. */
    method Reconcile() returns (ok: bool)
      requires Valid()
      modifies routes, routes.server
      ensures Valid()
      ensures PassLeads(Stored(), old(routes.View()), if ok then Succeeded else Failed, routes.View())
      ensures ok ==> routes.cache.Keys == Stored().Desired() + Stored().LiveKeys(old(routes.cache))
      ensures ok && AttributesStable(Stored(), old(routes.cache)) ==> routes.cache.Keys == Stored().Desired()
      ensures ok ==> EveryPairUp(services, endpoints.Keys, proxies, routes.cache)
      ensures ok ==> NothingStale(services, endpoints.Keys, proxies, routes.cache)
      ensures Between(Stored(), old(routes.cache), routes.cache)
      ensures |old(routes.calls)| <= |routes.calls| && NoDuplicates(routes.calls[|old(routes.calls)|..])
    {
      ghost var start := routes.View();
      ghost var ms;
      ok, ms := SweepRoutes();
      if ok {
        ok, ms := FillRoutes(start, ms);
      }
      PassAchieves(Stored(), start, ms, ok, routes.View());
    }

    ghost method Advance(start: Store<Route>, ms: seq<Pass>, m: Pass, m': Pass) returns (ms': seq<Pass>)
      requires Reaches(Stored(), start, ms, m) && Step(Stored(), m, m')
      ensures Reaches(Stored(), start, ms', m')
    {
      ms' := ms + [m'];
      Runs.Extend(Machine(Stored()), Pass(Begin, start), ms, m');
    }

    /** The first loop. */
    method SweepRoutes() returns (ok: bool, ghost ms: seq<Pass>)
      requires Valid()
      modifies routes, routes.server
      ensures At(old(routes.View()), ms, if ok then Sweep([], 0) else Failed)
    {
      ghost var start := routes.View();
      ms := [];
      var todo := ListOf(routes.cache);
      ms := Advance(start, ms, Pass(Begin, start), Pass(Sweep(todo, 0), start));
      while todo != []
        invariant At(start, ms, Sweep(todo, 0))
        decreases |todo|
      {
        var route := todo[0];
        ok, ms := CheckRoute(start, ms, todo, 0, route.proxy.key in proxies);
        if !ok {
          return;
        }
        ok, ms := CheckRoute(start, ms, todo, 1, route.service.key in services);
        if !ok {
          return;
        }
        ok, ms := CheckRoute(start, ms, todo, 2, route.service.key in endpoints);
        if !ok {
          return;
        }
        todo := todo[1..];
      }
      ok := true;
    }

    /** One test of a listed route, and its deletion if it does not pass. */
    method CheckRoute(ghost start: Store<Route>, ghost ms: seq<Pass>, todo: seq<Route>, ghost check: nat, passes: bool)
      returns (ok: bool, ghost ms': seq<Pass>)
      requires todo != [] && check <= 2 && passes == Stored().Passes(todo[0], check)
      requires At(start, ms, Sweep(todo, check))
      modifies routes, routes.server
      ensures At(start, ms', if !ok then Failed else if check < 2 then Sweep(todo, check + 1) else Sweep(todo[1..], 0))
    {
      ghost var m := Pass(Sweep(todo, check), routes.View());
      ghost var next := if check < 2 then Sweep(todo, check + 1) else Sweep(todo[1..], 0);
      ok := true;
      if !passes {
        ok := routes.Delete(todo[0]);
        assert Pass(if ok then next else Failed, routes.View()) == Withdrawing(m, todo[0], next, ok);
      }
      ms' := Advance(start, ms, m, Pass(if ok then next else Failed, routes.View()));
    }

    /** The two nested loops. */
    method FillRoutes(ghost start: Store<Route>, ghost ms0: seq<Pass>) returns (ok: bool, ghost ms: seq<Pass>)
      requires At(start, ms0, Sweep([], 0))
      modifies routes, routes.server
      ensures At(start, ms, if ok then Succeeded else Failed)
    {
      var ps := ListOf(proxies);
      ms := Advance(start, ms0, Pass(Sweep([], 0), routes.View()), Pass(NextProxy(ps), routes.View()));
      while ps != []
        invariant At(start, ms, NextProxy(ps))
        decreases |ps|
      {
        ok, ms := FillProxy(start, ms, ps);
        if !ok {
          return;
        }
        ps := ps[1..];
      }
      ms := Advance(start, ms, Pass(NextProxy([]), routes.View()), Pass(Succeeded, routes.View()));
      ok := true;
    }

    method FillProxy(ghost start: Store<Route>, ghost ms0: seq<Pass>, ps: seq<Pod>)
      returns (ok: bool, ghost ms: seq<Pass>)
      requires ps != [] && At(start, ms0, NextProxy(ps))
      modifies routes, routes.server
      ensures At(start, ms, if ok then NextProxy(ps[1..]) else Failed)
    {
      var ss := ListOf(services);
      ms := Advance(start, ms0, Pass(NextProxy(ps), routes.View()), Pass(NextService(ps, ss), routes.View()));
      while ss != []
        invariant At(start, ms, NextService(ps, ss))
        decreases |ss|
      {
        ok, ms := AddRoute(start, ms, ps, ss);
        if !ok {
          return;
        }
        ss := ss[1..];
      }
      ms := Advance(start, ms, Pass(NextService(ps, []), routes.View()), Pass(NextProxy(ps[1..]), routes.View()));
      ok := true;
    }

    method AddRoute(ghost start: Store<Route>, ghost ms: seq<Pass>, ps: seq<Pod>, ss: seq<AnnouncedService>)
      returns (ok: bool, ghost ms': seq<Pass>)
      requires ps != [] && ss != [] && At(start, ms, NextService(ps, ss))
      modifies routes, routes.server
      ensures At(start, ms', if ok then NextService(ps, ss[1..]) else Failed)
    {
      ghost var m := Pass(NextService(ps, ss), routes.View());
      ghost var next := NextService(ps, ss[1..]);
      ok := true;
      if ss[0].key in endpoints {
        var route := Route(ss[0], ps[0]);
        ok := routes.Add(route);
        assert Pass(if ok then next else Failed, routes.View()) == Announcing(m, route, next, ok);
      }
      ms' := Advance(start, ms, m, Pass(if ok then next else Failed, routes.View()));
    }
  }
}
