/** The three controllers that announce one route for each stored object:
    `pkg/controller/podsubnets.go`, `servicesubnet.go` and `apiservers.go`.
    Each has its own handlers; store, route store and reconcile have the same
    form and are in ObjectRoutesController. */
module ObjectRoutes {
  import opened Routes
  import opened RouteStores
  import opened ClusterObjects
  import opened Listings
  import opened ObjectPass
  import Runs

  class ObjectRoutesController<O(==, !new)> {
    const d: Kind<O>
    const routes: RoutesStore<O>
    // What the handlers see to before they store an object.
    const admissible: O -> bool
    var store: map<ObjectKey, O>
    // The number of calls of reconciler.Dirty.
    var dirtied: nat

    ghost predicate Valid()
      reads this, routes
    {
      && routes.Valid() && routes.keyOf == d.keyOf
      && Keyed(d, store)
      && (forall k :: k in store ==> admissible(store[k]))
      && (forall k :: k in routes.cache ==> admissible(routes.cache[k]))
    }

    constructor (server: Server, d: Kind<O>, admissible: O -> bool)
      ensures Valid() && store == map[] && dirtied == 0 && this.d == d && this.admissible == admissible
      ensures fresh(routes) && routes.server == server && routes.View() == Store(map[], [])
    {
      this.d := d;
      routes := new RoutesStore(server, d.keyOf);
      this.admissible := admissible;
      store, dirtied := map[], 0;
    }

    /** The store has followed the notice, and Dirty was called exactly if that
        changed it. */
    twostate predicate Follows(n: Notice<O>)
      reads this
    {
      store == Note(old(store), n) && dirtied == old(dirtied) + if store == old(store) then 0 else 1
    }

    method Put(o: O)
      requires Valid() && d.nameOf(o) !in store && admissible(o)
      modifies this`store, this`dirtied
      ensures Valid() && store == old(store)[d.nameOf(o) := o] && dirtied == old(dirtied) + 1
    {
      store := store[d.nameOf(o) := o];
      dirtied := dirtied + 1;
    }

    method Drop(o: O)
      requires Valid() && d.nameOf(o) in store
      modifies this`store, this`dirtied
      ensures Valid() && store == old(store) - {d.nameOf(o)} && dirtied == old(dirtied) + 1
    {
      store := store - {d.nameOf(o)};
      dirtied := dirtied + 1;
    }

    // Reconcile

    /** The machine has run from the state at the start to `pc`. */
    ghost predicate At(start: Store<O>, ms: seq<Pass<O>>, pc: Pc<O>)
      reads this, routes
    {
      Valid() && Reaches(d, store, start, ms, Pass(pc, routes.View()))
    }

    ghost method Advance(start: Store<O>, ms: seq<Pass<O>>, m: Pass<O>, m': Pass<O>) returns (ms': seq<Pass<O>>)
      requires Reaches(d, store, start, ms, m) && Step(d, store, m, m')
      ensures Reaches(d, store, start, ms', m')
    {
      ms' := ms + [m'];
      Runs.Extend(Machine(d, store), Pass(Begin, start), ms, m');
    }

    /** The pass is a run of the machine.  On success the keys are those of the
        stored objects and of old routes whose object is still stored; in any
        case those are kept and only wanted ones are added. */
    method Reconcile() returns (ok: bool)
      requires Valid()
      modifies routes, routes.server
      ensures Valid()
      ensures PassLeads(d, store, old(routes.View()), if ok then Succeeded else Failed, routes.View())
      ensures ok ==> routes.cache.Keys == DesiredKeys(d, store) + LiveKeys(d, store, old(routes.cache))
      ensures ok ==> forall k :: k in store ==> d.keyOf(store[k]) in routes.cache
      ensures ok ==> forall k :: k in routes.cache ==> d.nameOf(routes.cache[k]) in store
      ensures Between(d, store, old(routes.cache), routes.cache)
    {
      ghost var start := routes.View();
      ghost var ms;
      ok, ms := SweepRoutes();
      if ok {
        ok, ms := FillRoutes(start, ms);
      }
      ghost var end := Pass(if ok then Succeeded else Failed, routes.View());
      ReachedStates(d, store, start, ms, end);
      if ok {
        SuccessfulPass(d, store, start, ms, end);
      }
    }

    method SweepRoutes() returns (ok: bool, ghost ms: seq<Pass<O>>)
      requires Valid()
      modifies routes, routes.server
      ensures At(old(routes.View()), ms, if ok then Sweep([]) else Failed)
    {
      ghost var start := routes.View();
      ms := [];
      var todo := ListOf(routes.cache);
      ms := Advance(start, ms, Pass(Begin, start), Pass(Sweep(todo), start));
      while todo != []
        invariant At(start, ms, Sweep(todo))
        decreases |todo|
      {
        ok, ms := CheckRoute(start, ms, todo);
        if !ok {
          return;
        }
        todo := todo[1..];
      }
      ok := true;
    }

    /** The test of a listed route, and its deletion if it does not pass. */
    method CheckRoute(ghost start: Store<O>, ghost ms: seq<Pass<O>>, todo: seq<O>)
      returns (ok: bool, ghost ms': seq<Pass<O>>)
      requires todo != [] && At(start, ms, Sweep(todo))
      modifies routes, routes.server
      ensures At(start, ms', if ok then Sweep(todo[1..]) else Failed)
    {
      ghost var m := Pass(Sweep(todo), routes.View());
      ghost var next := Sweep(todo[1..]);
      ok := true;
      if d.nameOf(todo[0]) !in store {
        ok := routes.Delete(todo[0]);
        assert Pass(if ok then next else Failed, routes.View()) == Withdrawing(d, m, todo[0], next, ok);
      }
      ms' := Advance(start, ms, m, Pass(if ok then next else Failed, routes.View()));
    }

    method FillRoutes(ghost start: Store<O>, ghost ms0: seq<Pass<O>>) returns (ok: bool, ghost ms: seq<Pass<O>>)
      requires At(start, ms0, Sweep([]))
      modifies routes, routes.server
      ensures At(start, ms, if ok then Succeeded else Failed)
    {
      var todo := ListOf(store);
      ms := Advance(start, ms0, Pass(Sweep([]), routes.View()), Pass(Fill(todo), routes.View()));
      ListedIffStored(todo, store);
      while todo != []
        invariant At(start, ms, Fill(todo)) && forall o :: o in todo ==> o in store.Values
        decreases |todo|
      {
        ok, ms := AddRoute(start, ms, todo);
        if !ok {
          return;
        }
        todo := todo[1..];
      }
      ms := Advance(start, ms, Pass(Fill([]), routes.View()), Pass(Succeeded, routes.View()));
      ok := true;
    }

    method AddRoute(ghost start: Store<O>, ghost ms: seq<Pass<O>>, todo: seq<O>)
      returns (ok: bool, ghost ms': seq<Pass<O>>)
      requires todo != [] && todo[0] in store.Values && At(start, ms, Fill(todo))
      modifies routes, routes.server
      ensures At(start, ms', if ok then Fill(todo[1..]) else Failed)
    {
      ghost var m := Pass(Fill(todo), routes.View());
      ghost var next := Fill(todo[1..]);
      ok := routes.Add(todo[0]);
      assert Pass(if ok then next else Failed, routes.View()) == Announcing(d, m, todo[0], next, ok);
      ms' := Advance(start, ms, m, Pass(if ok then next else Failed, routes.View()));
    }
  }

  // Pod subnets

  /** The route of an annotated node; others are never stored, and what stands
      here for them does not matter. */
  function PodSubnetKey(n: Node): RouteKey {
    if n.podSubnet.Some? then RouteKey(n.podSubnet.value.ip, n.podSubnet.value.length, n.internalIP)
    else RouteKey(n.internalIP, 0, n.internalIP)
  }

  function PodSubnets(): Kind<Node> {
    Kind(PodSubnetKey, (n: Node) => n.key)
  }

  /** The pod subnets of annotated nodes, via the nodes' addresses. */
  ghost function PodSubnetRoutes(store: map<ObjectKey, Node>): set<RouteKey> {
    set k | k in store && store[k].podSubnet.Some? ::
      RouteKey(store[k].podSubnet.value.ip, store[k].podSubnet.value.length, store[k].internalIP)
  }

  lemma DesiredAreSubnetRoutes(store: map<ObjectKey, Node>)
    requires forall k :: k in store ==> store[k].podSubnet.Some?
    ensures DesiredKeys(PodSubnets(), store) == PodSubnetRoutes(store)
    ensures forall k :: k in store ==>
              var n := store[k];
              RouteKey(n.podSubnet.value.ip, n.podSubnet.value.length, n.internalIP) in PodSubnetRoutes(store)
  {
    forall k | k in store
      ensures var n := store[k];
              PodSubnets().keyOf(n) == RouteKey(n.podSubnet.value.ip, n.podSubnet.value.length, n.internalIP)
    {
    }
  }

  class PodSubnetsController {
    const core: ObjectRoutesController<Node>

    ghost predicate Valid()
      reads core, core.routes
    {
      && core.Valid() && core.d == PodSubnets()
      && (forall n: Node :: core.admissible(n) <==> n.podSubnet.Some?)
    }

    constructor (server: Server)
      ensures Valid() && core.store == map[] && core.dirtied == 0 && core.routes.server == server
      ensures core.routes.View() == Store(map[], [])
    {
      core := new ObjectRoutesController(server, PodSubnets(), (n: Node) => n.podSubnet.Some?);
    }

    method NodeAdd(node: Node)
      requires Valid()
      modifies core`store, core`dirtied
      ensures Valid() && core.Follows(NodeNotice(Upsert(node)))
      ensures core.dirtied == old(core.dirtied) + if core.store == old(core.store) then 0 else 1
      ensures node.key in core.store <==> node.podSubnet.Some?
      ensures core.store - {node.key} == old(core.store) - {node.key}
    {
      if node.podSubnet.None? {
        if node.key in core.store {
          core.Drop(node);
        } else {
          assert core.store - {node.key} == core.store;
        }
        return;
      }
      if node.key !in core.store {
        core.Put(node);
      }
    }

    method NodeDelete(node: Node)
      requires Valid()
      modifies core`store, core`dirtied
      ensures Valid() && core.Follows(NodeNotice(Remove(node))) && core.store == old(core.store) - {node.key}
      ensures core.dirtied == old(core.dirtied) + if core.store == old(core.store) then 0 else 1
    {
      if node.key in core.store {
        core.Drop(node);
      } else {
        assert core.store - {node.key} == core.store;
      }
    }

    /** Every announced node that is still stored has kept its subnet and its
        address. */
    ghost predicate AttributesStable()
      reads core, core.routes
    {
      SubnetsStable(core.store, core.routes.cache)
    }

    /** A success is exact under stable attributes, and only wanted keys survive
        beside those of old routes whose node is still stored. */
    method Reconcile() returns (ok: bool)
      requires Valid()
      modifies core.routes, core.routes.server
      ensures Valid()
      ensures ok ==>
                var keys := core.routes.cache.Keys;
                keys == DesiredKeys(core.d, core.store) + LiveKeys(core.d, core.store, old(core.routes.cache))
      ensures ok ==> SubnetsUp(core.store, core.routes.cache.Keys)
      ensures ok && old(AttributesStable()) ==> core.routes.cache.Keys == PodSubnetRoutes(core.store)
    {
      ghost var before := core.routes.cache;
      ghost var stable := AttributesStable();
      ok := core.Reconcile();
      if ok {
        SubnetsOutcome(core.store, before, core.routes.cache.Keys, stable);
      }
    }
  }

  /** Every stored node has its pod subnet announced via its own address. */
  ghost predicate SubnetsUp(store: map<ObjectKey, Node>, keys: set<RouteKey>) {
    forall k :: k in store ==>
      var n := store[k];
      n.podSubnet.Some? && RouteKey(n.podSubnet.value.ip, n.podSubnet.value.length, n.internalIP) in keys
  }

  ghost predicate SubnetsStable(store: map<ObjectKey, Node>, before: map<RouteKey, Node>) {
    forall k :: k in before && before[k].key in store ==>
      var n, n' := before[k], store[before[k].key];
      n.podSubnet == n'.podSubnet && n.internalIP == n'.internalIP
  }

  lemma SubnetsOutcome(store: map<ObjectKey, Node>, before: map<RouteKey, Node>, keys: set<RouteKey>, stable: bool)
    requires forall k :: k in store ==> store[k].podSubnet.Some?
    requires forall k :: k in before ==> PodSubnetKey(before[k]) == k
    requires keys == DesiredKeys(PodSubnets(), store) + LiveKeys(PodSubnets(), store, before)
    requires stable ==> SubnetsStable(store, before)
    ensures SubnetsUp(store, keys) && (stable ==> keys == PodSubnetRoutes(store))
  {
    DesiredAreSubnetRoutes(store);
    if stable {
      StableSubnetsAreDesired(store, before);
    }
  }

  lemma StableSubnetsAreDesired(store: map<ObjectKey, Node>, before: map<RouteKey, Node>)
    requires forall k :: k in before ==> PodSubnetKey(before[k]) == k
    requires SubnetsStable(store, before)
    ensures LiveKeys(PodSubnets(), store, before) <= DesiredKeys(PodSubnets(), store)
  {
    forall k | k in LiveKeys(PodSubnets(), store, before)
      ensures k in DesiredKeys(PodSubnets(), store)
    {
      assert PodSubnets().nameOf(before[k]) == before[k].key;
      assert PodSubnets().keyOf(store[before[k].key]) == k;
    }
  }

  // Service subnet and API servers

  function ServiceSubnet(subnet: Subnet): Kind<Pod> {
    Kind((p: Pod) => RouteKey(subnet.ip, subnet.length, p.hostIP), (p: Pod) => p.key)
  }

  function APIServers(masterIP: IPv4): Kind<Pod> {
    Kind((p: Pod) => RouteKey(masterIP, 32, p.hostIP), (p: Pod) => p.key)
  }

  /** A controller of pods on this host: of the proxies, for the service subnet,
      or of the API servers, for the master address.  All its pods share one
      route. */
  class HostPodsController {
    const host: IPv4
    const prefix: string
    const core: ObjectRoutesController<Pod>
    ghost const shared: RouteKey

    ghost predicate Valid()
      reads core, core.routes
    {
      && core.Valid()
      && (forall p: Pod :: core.d.nameOf(p) == p.key)
      && (forall p: Pod :: core.admissible(p) <==> p.hostIP == host)
      && (forall p: Pod :: p.hostIP == host ==> core.d.keyOf(p) == shared)
    }

    constructor OfServiceSubnet(server: Server, subnet: Subnet, host: IPv4)
      ensures Valid() && core.store == map[] && core.dirtied == 0 && core.routes.server == server
      ensures prefix == PROXY_PREFIX && this.host == host && core.d == ServiceSubnet(subnet)
      ensures shared == RouteKey(subnet.ip, subnet.length, host)
    {
      this.host := host;
      prefix := PROXY_PREFIX;
      shared := RouteKey(subnet.ip, subnet.length, host);
      core := new ObjectRoutesController(server, ServiceSubnet(subnet), (p: Pod) => p.hostIP == host);
    }

    constructor OfAPIServers(server: Server, masterIP: IPv4, host: IPv4)
      ensures Valid() && core.store == map[] && core.dirtied == 0 && core.routes.server == server
      ensures prefix == APISERVER_PREFIX && this.host == host && core.d == APIServers(masterIP)
      ensures shared == RouteKey(masterIP, 32, host)
    {
      this.host := host;
      prefix := APISERVER_PREFIX;
      shared := RouteKey(masterIP, 32, host);
      core := new ObjectRoutesController(server, APIServers(masterIP), (p: Pod) => p.hostIP == host);
    }

    method PodAdd(pod: Pod)
      requires Valid()
      modifies core`store, core`dirtied
      ensures Valid() && core.Follows(PodNotice(prefix, host, Upsert(pod)))
      ensures core.dirtied == old(core.dirtied) + if core.store == old(core.store) then 0 else 1
      ensures prefix <= pod.key.name && pod.key.namespace == SYSTEM_NAMESPACE && pod.hostIP == host ==>
                && (pod.key in core.store <==> pod.ready)
                && core.store - {pod.key} == old(core.store) - {pod.key}
      ensures !(prefix <= pod.key.name && pod.key.namespace == SYSTEM_NAMESPACE && pod.hostIP == host) ==>
                core.store == old(core.store) && core.dirtied == old(core.dirtied)
    {
      if !(prefix <= pod.key.name) || pod.key.namespace != SYSTEM_NAMESPACE {
        return;
      }
      if pod.hostIP != host {
        return;
      }
      if pod.ready {
        if pod.key !in core.store {
          core.Put(pod);
        }
      } else if pod.key in core.store {
        core.Drop(pod);
      } else {
        assert core.store - {pod.key} == core.store;
      }
    }

    method PodDelete(pod: Pod)
      requires Valid()
      modifies core`store, core`dirtied
      ensures Valid() && core.Follows(PodNotice(prefix, host, Remove(pod))) && core.store == old(core.store) - {pod.key}
      ensures core.dirtied == old(core.dirtied) + if core.store == old(core.store) then 0 else 1
    {
      if pod.key in core.store {
        core.Drop(pod);
      } else {
        assert core.store - {pod.key} == core.store;
      }
    }

    /** All pods being on the host, a success is exact without any hypothesis:
        the one route is announced just when some pod is stored. */
    method Reconcile() returns (ok: bool)
      requires Valid()
      modifies core.routes, core.routes.server
      ensures Valid()
      ensures ok ==> core.routes.cache.Keys == DesiredKeys(core.d, core.store)
      ensures ok ==> core.routes.cache.Keys == if core.store == map[] then {} else {shared}
    {
      ghost var before := core.routes.cache;
      assert forall k :: k in before ==> core.admissible(before[k]) && k == shared;
      ok := core.Reconcile();
      SharedKeys(core.d, host, shared, core.store, before);
    }
  }

  lemma SharedKeys(d: Kind<Pod>, host: IPv4, shared: RouteKey, store: map<ObjectKey, Pod>, before: map<RouteKey, Pod>)
    requires forall p: Pod :: p.hostIP == host ==> d.keyOf(p) == shared
    requires forall k :: k in store ==> store[k].hostIP == host
    requires forall k :: k in before ==> k == shared
    ensures DesiredKeys(d, store) == if store == map[] then {} else {shared}
    ensures LiveKeys(d, store, before) <= DesiredKeys(d, store)
  {
    if store != map[] {
      var k :| k in store;
      assert d.keyOf(store[k]) in DesiredKeys(d, store);
    }
  }
}
