/** What a pass of the external-services `reconcile` achieves when the object
    stores do not change under it (`pkg/controller/externalservices.go`), for
    every order in which the stores list their contents. */
module PassResults {
  import opened Prelude
  import opened Routes
  import opened RouteStores
  import opened ExternalObjects
  import opened ReconcilePass
  import Runs

  /** Runs of the machine over fixed object stores; a step is named by the
      state it leads to. */
  ghost function Machine(o: Objects): Runs.System<Pass, Pass> {
    Runs.System((m, m') => Step(o, m, m'), (m, m') => m')
  }

  /** From `s`, the steps `ms` lead to `end`. */
  ghost predicate Reaches(o: Objects, s: Store<Route>, ms: seq<Pass>, end: Pass) {
    Runs.IsRun(Machine(o), Pass(Begin, s), ms) && Runs.After(Machine(o), Pass(Begin, s), ms) == end
  }

  ghost predicate WellFiled(s: Store<Route>) {
    forall k :: k in s.routes ==> s.routes[k].Key() == k
  }

  lemma LastStep(o: Objects, s: Store<Route>, ms: seq<Pass>, end: Pass) returns (before: Pass)
    requires Reaches(o, s, ms, end) && ms != []
    ensures Reaches(o, s, ms[..|ms| - 1], before) && Step(o, before, end)
  {
    before := Runs.After(Machine(o), Pass(Begin, s), ms[..|ms| - 1]);
  }

  // The outcome

  /** Between the routes at the start and the routes now: live ones were kept,
      and what is new is wanted. */
  ghost predicate Between(o: Objects, start: map<RouteKey, Route>, now: map<RouteKey, Route>) {
    && (forall k :: k in start && o.Live(start[k]) ==> k in now && now[k] == start[k])
    && (forall k :: k in now ==> (k in start && now[k] == start[k]) || (k in o.Desired() && o.Live(now[k])))
  }

  lemma StepKeepsBetween(o: Objects, start: map<RouteKey, Route>, m: Pass, m': Pass)
    requires o.Keyed() && Filed(m) && Progress(o, m) && Step(o, m, m') && Between(o, start, m.store.routes)
    ensures Between(o, start, m'.store.routes)
  {
    if m.pc.NextService? && m.pc.services != [] && m'.store != m.store {
      var s, p := m.pc.services[0], m.pc.proxies[0];
      assert s in Elements(m.pc.services) && p in Elements(m.pc.proxies);
      assert Route(s, p).Key() == RouteKey(s.externalIPs[0], 32, p.hostIP);
      assert Route(s, p).Key() in o.Desired();
    }
  }

  lemma {:induction false} ReachedStates(o: Objects, s: Store<Route>, ms: seq<Pass>, end: Pass)
    requires o.Keyed() && WellFiled(s) && Reaches(o, s, ms, end)
    ensures Filed(end) && Progress(o, end) && Between(o, s.routes, end.store.routes)
  {
    if ms != [] {
      var before := LastStep(o, s, ms, end);
      ReachedStates(o, s, ms[..|ms| - 1], before);
      StepKeepsFiled(o, before, end);
      StepKeepsProgress(o, before, end);
      StepKeepsBetween(o, s.routes, before, end);
    }
  }

  lemma DesiredAnnounced(o: Objects, routes: map<RouteKey, Route>)
    requires Settled(o, routes)
    ensures o.Desired() <= routes.Keys
  {
    forall k | k in o.Desired()
      ensures k in routes
    {
      var s, p :| s in o.services.Values && p in o.proxies.Values && s.key in o.endpoints &&
                  RouteKey(s.externalIPs[0], 32, p.hostIP) == k;
      assert o.Wanted(s, p) && Route(s, p).Key() == k;
    }
  }

  lemma SettledKeys(o: Objects, start: map<RouteKey, Route>, now: map<RouteKey, Route>)
    requires Between(o, start, now) && Settled(o, now)
    ensures now.Keys == o.Desired() + o.LiveKeys(start)
  {
    DesiredAnnounced(o, now);
  }

  /** A pass without errors ends with exactly the desired keys and the keys of
      those old routes whose own proxy and service are still live. */
  lemma SuccessfulPass(o: Objects, s: Store<Route>, ms: seq<Pass>, end: Pass)
    requires o.Keyed() && WellFiled(s) && Reaches(o, s, ms, end) && end.pc == Succeeded
    ensures end.store.routes.Keys == o.Desired() + o.LiveKeys(s.routes)
    ensures Settled(o, end.store.routes)
  {
    ReachedStates(o, s, ms, end);
    SettledKeys(o, s.routes, end.store.routes);
  }

  /** Old routes still say what the stored objects say. */
  ghost predicate AttributesStable(o: Objects, routes: map<RouteKey, Route>) {
    forall k :: k in routes && o.Live(routes[k]) ==>
      var r := routes[k];
      && r.service.externalIPs[0] == o.services[r.service.key].externalIPs[0]
      && r.proxy.hostIP == o.proxies[r.proxy.key].hostIP
  }

  lemma StableLiveKeysAreDesired(o: Objects, routes: map<RouteKey, Route>)
    requires o.Keyed() && AttributesStable(o, routes) && (forall k :: k in routes ==> routes[k].Key() == k)
    ensures o.LiveKeys(routes) <= o.Desired()
  {
    forall k | k in o.LiveKeys(routes)
      ensures k in o.Desired()
    {
      var r := routes[k];
      var s, p := o.services[r.service.key], o.proxies[r.proxy.key];
      assert s in o.services.Values && p in o.proxies.Values && Route(s, p).Key() == k;
    }
  }

  /** With stable attributes that is the desired set. */
  lemma SuccessfulPassStable(o: Objects, s: Store<Route>, ms: seq<Pass>, end: Pass)
    requires o.Keyed() && WellFiled(s) && Reaches(o, s, ms, end) && end.pc == Succeeded
    requires AttributesStable(o, s.routes)
    ensures end.store.routes.Keys == o.Desired()
  {
    SuccessfulPass(o, s, ms, end);
    StableLiveKeysAreDesired(o, s.routes);
  }

  /** And without: it is the desired set just when every live old route is
      announced under a key that some stored service and proxy still want. */
  lemma SuccessfulPassExactIff(o: Objects, s: Store<Route>, ms: seq<Pass>, end: Pass)
    requires o.Keyed() && WellFiled(s) && Reaches(o, s, ms, end) && end.pc == Succeeded
    ensures end.store.routes.Keys == o.Desired() <==> o.LiveKeys(s.routes) <= o.Desired()
  {
    SuccessfulPass(o, s, ms, end);
  }

  // Failed passes

  ghost predicate PassLeads(o: Objects, s: Store<Route>, pc: Pc, s': Store<Route>) {
    exists ms :: Reaches(o, s, ms, Pass(pc, s'))
  }

  /** A pass that ends, in error or not, changes nothing of what a later
      success will end with. */
  lemma PassKeepsGoal(o: Objects, s: Store<Route>, pc: Pc, s': Store<Route>)
    requires o.Keyed() && WellFiled(s) && PassLeads(o, s, pc, s')
    ensures WellFiled(s')
    ensures o.Desired() + o.LiveKeys(s'.routes) == o.Desired() + o.LiveKeys(s.routes)
  {
    var ms :| Reaches(o, s, ms, Pass(pc, s'));
    ReachedStates(o, s, ms, Pass(pc, s'));
  }

  /** Any number of passes that fail part-way, and then one that succeeds, end
      with the keys that a single success would have given. */
  lemma {:induction false} RetriesReachSameKeys(o: Objects, stores: seq<Store<Route>>, end: Store<Route>)
    requires o.Keyed() && stores != [] && WellFiled(stores[0])
    requires forall i :: 0 <= i < |stores| - 1 ==> PassLeads(o, stores[i], Failed, stores[i + 1])
    requires PassLeads(o, stores[|stores| - 1], Succeeded, end)
    ensures end.routes.Keys == o.Desired() + o.LiveKeys(stores[0].routes)
  {
    if |stores| == 1 {
      var ms :| Reaches(o, stores[0], ms, Pass(Succeeded, end));
      SuccessfulPass(o, stores[0], ms, Pass(Succeeded, end));
    } else {
      PassKeepsGoal(o, stores[0], Failed, stores[1]);
      var rest := stores[1..];
      forall i | 0 <= i < |rest| - 1
        ensures PassLeads(o, rest[i], Failed, rest[i + 1])
      {
        var j := i + 1;
        assert PassLeads(o, stores[j], Failed, stores[j + 1]);
      }
      RetriesReachSameKeys(o, rest, end);
    }
  }

  // Calls of the speaker

  ghost predicate Quiet(o: Objects, s: Store<Route>, m: Pass) {
    && m.store == s
    && match m.pc
       case Sweep(todo, _) => Elements(todo) <= s.routes.Values
       case NextProxy(ps) => Elements(ps) <= o.proxies.Values
       case NextService(ps, ss) => ps != [] && Elements(ps) <= o.proxies.Values && Elements(ss) <= o.services.Values
       case Failed => false
       case _ => true
  }

  lemma StepStaysQuiet(o: Objects, s: Store<Route>, m: Pass, m': Pass)
    requires Settled(o, s.routes) && Quiet(o, s, m) && Step(o, m, m')
    ensures Quiet(o, s, m')
  {
    match m.pc
    case Sweep(todo, check) =>
      if todo != [] {
        assert todo[0] in Elements(todo);
        assert todo[0] in s.routes.Values;
        assert Elements(todo[1..]) <= Elements(todo);
      }
    case NextService(ps, ss) =>
      assert Elements(ps[1..]) <= Elements(ps);
      if ss != [] {
        assert ss[0] in Elements(ss) && ps[0] in Elements(ps);
        assert Elements(ss[1..]) <= Elements(ss);
        assert ss[0].key in o.endpoints ==> o.Wanted(ss[0], ps[0]);
      }
    case _ =>
  }

  /** After a success a further pass makes no call at all, and cannot fail. */
  lemma {:induction false} SecondPassIsQuiet(o: Objects, s: Store<Route>, ms: seq<Pass>, end: Pass)
    requires Settled(o, s.routes) && Reaches(o, s, ms, end)
    ensures Quiet(o, s, end) && end.store == s && end.pc != Failed
  {
    if ms != [] {
      var before := LastStep(o, s, ms, end);
      SecondPassIsQuiet(o, s, ms[..|ms| - 1], before);
      StepStaysQuiet(o, s, before, end);
    }
  }

  /** No call of the pass, which began after n calls, was made twice: although
      each route may be deleted up to three times, it is withdrawn once. */
  ghost predicate OnceEach(n: nat, m: Pass) {
    && n <= |m.store.calls|
    && NoDuplicates(m.store.calls[n..])
    && match m.pc
       case Begin => |m.store.calls| == n
       case Sweep(_, _) =>
         forall c :: c in m.store.calls[n..] ==> c.Withdraw? && c.key !in m.store.routes
       case Failed => true
       case _ =>
         forall c :: c in m.store.calls[n..] && c.Announce? ==> c.key in m.store.routes
  }

  /** This holds whatever the handlers do to the object stores meanwhile. */
  lemma StepKeepsOnceEach(o: Objects, n: nat, m: Pass, m': Pass)
    requires OnceEach(n, m) && Step(o, m, m')
    ensures OnceEach(n, m')
  {
    var cs, cs' := m.store.calls[n..], m'.store.calls[n..];
    if m'.store != m.store {
      var c := m'.store.calls[|m.store.calls|];
      assert cs' == cs + [c];
      assert c !in cs;
    }
  }

  lemma {:induction false} NoCallTwice(o: Objects, s: Store<Route>, ms: seq<Pass>, end: Pass)
    requires Reaches(o, s, ms, end)
    ensures OnceEach(|s.calls|, end)
  {
    if ms != [] {
      var before := LastStep(o, s, ms, end);
      NoCallTwice(o, s, ms[..|ms| - 1], before);
      StepKeepsOnceEach(o, |s.calls|, before, end);
    }
  }
}
