/** One pass of the external-services `reconcile`
    (`pkg/controller/externalservices.go`) as a machine that reads the object
    stores one at a time, so that other modules may change the stores between
    its steps.  Module ExternalServices proves the code to be a run of it. */
module ReconcilePass {
  import opened Prelude
  import opened Routes
  import opened RouteStores
  import opened ClusterObjects
  import opened ExternalObjects
  import opened Listings

  datatype Pc =
    | Begin
    | Sweep(todo: seq<Route>, check: nat)                    // first loop, before test `check` of todo[0]
    | NextProxy(proxies: seq<Pod>)                           // outer loop over the proxies
    | NextService(proxies: seq<Pod>, services: seq<AnnouncedService>) // inner loop, for proxies[0]
    | Succeeded
    | Failed

  datatype Pass = Pass(pc: Pc, store: Store<Route>)

  /** Delete or Add on the route store: go on, or end the pass with an error. */
  function Withdrawing(m: Pass, r: Route, next: Pc, ok: bool): Pass {
    if r.Key() in m.store.routes && !ok then m.(pc := Failed) else Pass(next, m.store.Delete(r.Key(), ok))
  }

  function Announcing(m: Pass, r: Route, next: Pc, ok: bool): Pass {
    if r.Key() !in m.store.routes && !ok then m.(pc := Failed) else Pass(next, m.store.Add(r.Key(), r, ok))
  }

  /** One step, reading the object stores `o` as they are at that moment. */
  ghost predicate Step(o: Objects, m: Pass, m': Pass) {
    match m.pc
    case Begin =>
      m'.store == m.store && m'.pc.Sweep? && m'.pc.check == 0 && Lists(m'.pc.todo, m.store.routes)
    case Sweep(todo, check) =>
      if todo == [] then
        m'.store == m.store && m'.pc.NextProxy? && Lists(m'.pc.proxies, o.proxies)
      else
        var next := if check < 2 then Sweep(todo, check + 1) else Sweep(todo[1..], 0);
        if o.Passes(todo[0], check) then m' == m.(pc := next)
        else m' == Withdrawing(m, todo[0], next, true) || m' == Withdrawing(m, todo[0], next, false)
    case NextProxy(ps) =>
      if ps == [] then m' == m.(pc := Succeeded)
      else m'.store == m.store && m'.pc.NextService? && m'.pc.proxies == ps && Lists(m'.pc.services, o.services)
    case NextService(ps, ss) =>
      if ps == [] || ss == [] then m' == m.(pc := NextProxy(if ps == [] then [] else ps[1..]))
      else
        var next := NextService(ps, ss[1..]);
        if ss[0].key !in o.endpoints then m' == m.(pc := next)
        else
          var r := Route(ss[0], ps[0]);
          m' == Announcing(m, r, next, true) || m' == Announcing(m, r, next, false)
    case _ => false
  }

  // What holds at every step, whatever happens to the object stores

  /** Routes are filed under their own keys; what is left of a listed key is
      the listed route. */
  ghost predicate Filed(m: Pass) {
    && (forall k :: k in m.store.routes ==> m.store.routes[k].Key() == k)
    && (m.pc.Sweep? ==>
          forall r :: r in m.pc.todo && r.Key() in m.store.routes ==> m.store.routes[r.Key()] == r)
  }

  lemma StepKeepsFiled(o: Objects, m: Pass, m': Pass)
    requires Filed(m) && Step(o, m, m')
    ensures Filed(m')
  {
    match m.pc
    case Begin =>
      forall r | r in m'.pc.todo && r.Key() in m.store.routes
        ensures m.store.routes[r.Key()] == r
      {
        assert r in Elements(m'.pc.todo);
        assert r in m.store.routes.Values;
      }
    case Sweep(todo, check) =>
      assert todo != [] ==> forall r :: r in todo[1..] ==> r in todo;
    case _ =>
  }

  /** The store changes by one successful addition or deletion at most. */
  lemma StepChangesStore(o: Objects, m: Pass, m': Pass) returns (r: Route)
    requires Step(o, m, m')
    ensures m'.store in {m.store, m.store.Add(r.Key(), r, true), m.store.Delete(r.Key(), true)}
  {
    match m.pc
    case Sweep(todo, _) =>
      if todo != [] {
        r := todo[0];
      } else {
        r := *;
      }
    case NextService(ps, ss) =>
      if ps != [] && ss != [] {
        r := Route(ss[0], ps[0]);
      } else {
        r := *;
      }
    case _ => r := *;
  }

  // What holds as long as the object stores stay the same

  ghost predicate AllLive(o: Objects, routes: map<RouteKey, Route>) {
    forall k :: k in routes ==> o.Live(routes[k])
  }

  ghost predicate HasAll(o: Objects, p: Pod, except: seq<AnnouncedService>, routes: map<RouteKey, Route>) {
    forall s :: o.Wanted(s, p) && s !in except ==> Route(s, p).Key() in routes
  }

  /** How far a pass has come. */
  ghost predicate Progress(o: Objects, m: Pass) {
    match m.pc
    case Begin => true
    case Sweep(todo, check) =>
      && (forall k :: k in m.store.routes ==> o.Live(m.store.routes[k]) || m.store.routes[k] in todo)
      && (todo != [] && todo[0].Key() in m.store.routes ==> forall c :: 0 <= c < check <= 2 ==> o.Passes(todo[0], c))
      && check <= 2
    case NextProxy(ps) =>
      && AllLive(o, m.store.routes)
      && Elements(ps) <= o.proxies.Values
      && (forall p :: p in o.proxies.Values && p !in ps ==> HasAll(o, p, [], m.store.routes))
    case NextService(ps, ss) =>
      && AllLive(o, m.store.routes)
      && ps != [] && Elements(ps) <= o.proxies.Values && Elements(ss) <= o.services.Values
      && (forall p :: p in o.proxies.Values && p !in ps ==> HasAll(o, p, [], m.store.routes))
      && HasAll(o, ps[0], ss, m.store.routes)
    case Succeeded => Settled(o, m.store.routes)
    case Failed => true
  }

  /** Nothing to do: every route is live and every wanted key is there. */
  ghost predicate Settled(o: Objects, routes: map<RouteKey, Route>) {
    AllLive(o, routes) && forall s, p :: o.Wanted(s, p) ==> Route(s, p).Key() in routes
  }

  lemma SweepStep(o: Objects, m: Pass, m': Pass)
    requires Filed(m) && Progress(o, m) && Step(o, m, m') && m.pc.Sweep? && m.pc.todo != []
    ensures Progress(o, m')
  {
    var todo, check, r := m.pc.todo, m.pc.check, m.pc.todo[0];
    assert todo == [r] + todo[1..];
    if m'.pc.Sweep? && r.Key() in m'.store.routes {
      assert m'.store == m.store && o.Passes(r, check);
      assert check == 2 ==> o.Passes(r, 0) && o.Passes(r, 1) && o.Live(r);
    }
  }

  lemma FillStep(o: Objects, m: Pass, m': Pass)
    requires o.Keyed() && Progress(o, m) && Step(o, m, m') && m.pc.NextService? && m.pc.services != []
    ensures Progress(o, m')
  {
    var ps, ss, s, p := m.pc.proxies, m.pc.services, m.pc.services[0], m.pc.proxies[0];
    assert ss == [s] + ss[1..];
    assert s in Elements(ss) && p in Elements(ps);
    assert Elements(ss[1..]) <= Elements(ss);
  }

  lemma StepKeepsProgress(o: Objects, m: Pass, m': Pass)
    requires o.Keyed() && Filed(m) && Progress(o, m) && Step(o, m, m')
    ensures Progress(o, m')
  {
    match m.pc
    case Begin =>
      forall k | k in m.store.routes
        ensures m.store.routes[k] in m'.pc.todo
      {
        assert m.store.routes[k] in m.store.routes.Values;
        assert m.store.routes[k] in Elements(m'.pc.todo);
      }
    case Sweep(todo, check) =>
      if todo != [] {
        SweepStep(o, m, m');
      } else {
        forall p | p in o.proxies.Values
          ensures p in m'.pc.proxies
        {
          assert p in Elements(m'.pc.proxies);
        }
      }
    case NextProxy(ps) =>
      if ps != [] {
        forall s | s in o.services.Values
          ensures s in m'.pc.services
        {
          assert s in Elements(m'.pc.services);
        }
      }
    case NextService(ps, ss) =>
      if ss != [] {
        FillStep(o, m, m');
      } else {
        assert ps == [ps[0]] + ps[1..];
        assert Elements(ps[1..]) <= Elements(ps);
      }
    case _ =>
  }
}
