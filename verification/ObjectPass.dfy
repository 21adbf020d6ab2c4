/** One pass of the reconcile function that `pkg/controller/podsubnets.go`,
    `servicesubnet.go` and `apiservers.go` share: one object store, and one
    route for each stored object.  As in module ReconcilePass, it is a machine
    that reads the store step by step. */
module ObjectPass {
  import opened Routes
  import opened RouteStores
  import opened ClusterObjects
  import opened Listings
  import Runs

  /** The route key and the name of an object. */
  datatype Kind<!O> = Kind(keyOf: O -> RouteKey, nameOf: O -> ObjectKey)

  type Objs<O> = map<ObjectKey, O>

  datatype Pc<O> =
    | Begin
    | Sweep(todo: seq<O>)  // first loop, over the objects of the listed routes
    | Fill(todo: seq<O>)   // second loop, over the stored objects
    | Succeeded
    | Failed

  datatype Pass<O> = Pass(pc: Pc<O>, store: Store<O>)

  function Withdrawing<O>(d: Kind<O>, m: Pass<O>, r: O, next: Pc<O>, ok: bool): Pass<O> {
    if d.keyOf(r) in m.store.routes && !ok then m.(pc := Failed) else Pass(next, m.store.Delete(d.keyOf(r), ok))
  }

  function Announcing<O>(d: Kind<O>, m: Pass<O>, r: O, next: Pc<O>, ok: bool): Pass<O> {
    if d.keyOf(r) !in m.store.routes && !ok then m.(pc := Failed) else Pass(next, m.store.Add(d.keyOf(r), r, ok))
  }

  ghost predicate Step<O>(d: Kind<O>, o: Objs<O>, m: Pass<O>, m': Pass<O>) {
    match m.pc
    case Begin => m'.store == m.store && m'.pc.Sweep? && Lists(m'.pc.todo, m.store.routes)
    case Sweep(todo) =>
      if todo == [] then m'.store == m.store && m'.pc.Fill? && Lists(m'.pc.todo, o)
      else
        var next := Sweep(todo[1..]);
        if d.nameOf(todo[0]) in o then m' == m.(pc := next)
        else m' == Withdrawing(d, m, todo[0], next, true) || m' == Withdrawing(d, m, todo[0], next, false)
    case Fill(todo) =>
      if todo == [] then m' == m.(pc := Succeeded)
      else
        var next := Fill(todo[1..]);
        m' == Announcing(d, m, todo[0], next, true) || m' == Announcing(d, m, todo[0], next, false)
    case _ => false
  }

  // What reconcile should achieve

  /** The keys of the stored objects. */
  ghost function DesiredKeys<O>(d: Kind<O>, o: Objs<O>): set<RouteKey> {
    set k | k in o :: d.keyOf(o[k])
  }

  ghost predicate Live<O>(d: Kind<O>, o: Objs<O>, r: O) {
    d.nameOf(r) in o
  }

  /** The keys of those routes whose own object is still stored. */
  ghost function LiveKeys<O>(d: Kind<O>, o: Objs<O>, routes: map<RouteKey, O>): set<RouteKey> {
    set k | k in routes && Live(d, o, routes[k])
  }

  ghost predicate AllLive<O>(d: Kind<O>, o: Objs<O>, routes: map<RouteKey, O>) {
    forall k :: k in routes ==> Live(d, o, routes[k])
  }

  /** Nothing to do: every route is live and every stored object has its. */
  ghost predicate Settled<O>(d: Kind<O>, o: Objs<O>, routes: map<RouteKey, O>) {
    AllLive(d, o, routes) && DesiredKeys(d, o) <= routes.Keys
  }

  // What holds at every step, whatever happens to the store

  ghost predicate Keyed<O>(d: Kind<O>, o: Objs<O>) {
    forall k :: k in o ==> d.nameOf(o[k]) == k
  }

  ghost predicate Filed<O>(d: Kind<O>, m: Pass<O>) {
    && (forall k :: k in m.store.routes ==> d.keyOf(m.store.routes[k]) == k)
    && (m.pc.Sweep? ==>
          forall r :: r in m.pc.todo && d.keyOf(r) in m.store.routes ==> m.store.routes[d.keyOf(r)] == r)
  }

  lemma StepKeepsFiled<O>(d: Kind<O>, o: Objs<O>, m: Pass<O>, m': Pass<O>)
    requires Filed(d, m) && Step(d, o, m, m')
    ensures Filed(d, m')
  {
    match m.pc
    case Begin => ListedIffStored(m'.pc.todo, m.store.routes);
    case Sweep(todo) => assert todo != [] ==> forall r :: r in todo[1..] ==> r in todo;
    case _ =>
  }

  /** The store changes by one successful addition or deletion at most. */
  lemma StepChangesStore<O>(d: Kind<O>, o: Objs<O>, m: Pass<O>, m': Pass<O>) returns (k: RouteKey)
    requires Step(d, o, m, m')
    ensures || m'.store == m.store || m'.store == m.store.Delete(k, true)
            || exists r :: m'.store == m.store.Add(k, r, true)
  {
    if (m.pc.Sweep? || m.pc.Fill?) && m.pc.todo != [] {
      k := d.keyOf(m.pc.todo[0]);
    } else {
      k := *;
    }
  }

  lemma StepKeepsConsistent<O>(d: Kind<O>, o: Objs<O>, m: Pass<O>, m': Pass<O>)
    requires m.store.Consistent() && Step(d, o, m, m')
    ensures m'.store.Consistent()
  {
    if (m.pc.Sweep? || m.pc.Fill?) && m.pc.todo != [] {
      var r := m.pc.todo[0];
      StoreStaysConsistent(m.store, d.keyOf(r), r, true);
    }
  }

  // What holds as long as the store stays the same

  ghost predicate Progress<O>(d: Kind<O>, o: Objs<O>, m: Pass<O>) {
    match m.pc
    case Begin => true
    case Sweep(todo) =>
      forall k :: k in m.store.routes ==> Live(d, o, m.store.routes[k]) || m.store.routes[k] in todo
    case Fill(todo) =>
      && AllLive(d, o, m.store.routes)
      && (forall x :: x in todo ==> x in o.Values)
      && (forall k :: k in o && o[k] !in todo ==> d.keyOf(o[k]) in m.store.routes)
    case Succeeded => Settled(d, o, m.store.routes)
    case Failed => true
  }

  lemma StepKeepsProgress<O>(d: Kind<O>, o: Objs<O>, m: Pass<O>, m': Pass<O>)
    requires Keyed(d, o) && Filed(d, m) && Progress(d, o, m) && Step(d, o, m, m')
    ensures Progress(d, o, m')
  {
    match m.pc
    case Begin => ListedIffStored(m'.pc.todo, m.store.routes);
    case Sweep(todo) =>
      if todo == [] {
        ListedIffStored(m'.pc.todo, o);
      } else {
        assert todo == [todo[0]] + todo[1..];
      }
    case Fill(todo) =>
      if todo != [] {
        assert todo == [todo[0]] + todo[1..];
        assert todo[0] in o.Values;
        var k :| k in o && o[k] == todo[0];
        assert Live(d, o, todo[0]);
      }
    case _ =>
  }

  /** Between the routes at the start and the routes now: live ones were kept,
      and what is new is wanted. */
  ghost predicate Between<O>(d: Kind<O>, o: Objs<O>, start: map<RouteKey, O>, now: map<RouteKey, O>) {
    && (forall k :: k in start && Live(d, o, start[k]) ==> k in now && now[k] == start[k])
    && (forall k :: k in now ==> (k in start && now[k] == start[k]) || (k in DesiredKeys(d, o) && Live(d, o, now[k])))
  }

  lemma StepKeepsBetween<O>(d: Kind<O>, o: Objs<O>, start: map<RouteKey, O>, m: Pass<O>, m': Pass<O>)
    requires Keyed(d, o) && Filed(d, m) && Progress(d, o, m) && Step(d, o, m, m')
    requires Between(d, o, start, m.store.routes)
    ensures Between(d, o, start, m'.store.routes)
  {
    if m.pc.Fill? && m.pc.todo != [] {
      assert m.pc.todo[0] in o.Values;
      var k :| k in o && o[k] == m.pc.todo[0];
      assert Live(d, o, o[k]) && d.keyOf(o[k]) in DesiredKeys(d, o);
    }
  }

  // Whole passes

  ghost function Machine<O>(d: Kind<O>, o: Objs<O>): Runs.System<Pass<O>, Pass<O>> {
    Runs.System((m, m') => Step(d, o, m, m'), (m, m') => m')
  }

  /** From `s`, the steps `ms` lead to `end`. */
  ghost predicate Reaches<O>(d: Kind<O>, o: Objs<O>, s: Store<O>, ms: seq<Pass<O>>, end: Pass<O>) {
    Runs.IsRun(Machine(d, o), Pass(Begin, s), ms) && Runs.After(Machine(d, o), Pass(Begin, s), ms) == end
  }

  /** Some run of the machine leads there. */
  ghost predicate PassLeads<O(!new)>(d: Kind<O>, o: Objs<O>, s: Store<O>, pc: Pc<O>, s': Store<O>) {
    exists ms :: Reaches(d, o, s, ms, Pass(pc, s'))
  }

  ghost predicate WellFiled<O>(d: Kind<O>, s: Store<O>) {
    forall k :: k in s.routes ==> d.keyOf(s.routes[k]) == k
  }

  lemma {:induction false} ReachedStates<O>(d: Kind<O>, o: Objs<O>, s: Store<O>, ms: seq<Pass<O>>, end: Pass<O>)
    requires Keyed(d, o) && WellFiled(d, s) && Reaches(d, o, s, ms, end)
    ensures Filed(d, end) && Progress(d, o, end) && Between(d, o, s.routes, end.store.routes)
  {
    if ms != [] {
      var before := Runs.After(Machine(d, o), Pass(Begin, s), ms[..|ms| - 1]);
      ReachedStates(d, o, s, ms[..|ms| - 1], before);
      StepKeepsFiled(d, o, before, end);
      StepKeepsProgress(d, o, before, end);
      StepKeepsBetween(d, o, s.routes, before, end);
    }
  }

  /** A pass without errors ends with exactly the keys of the stored objects and
      those of old routes whose own object is still stored. */
  lemma SuccessfulPass<O>(d: Kind<O>, o: Objs<O>, s: Store<O>, ms: seq<Pass<O>>, end: Pass<O>)
    requires Keyed(d, o) && WellFiled(d, s) && Reaches(d, o, s, ms, end) && end.pc == Succeeded
    ensures end.store.routes.Keys == DesiredKeys(d, o) + LiveKeys(d, o, s.routes)
  {
    ReachedStates(d, o, s, ms, end);
  }

  /** That is exact just when every old route whose object is still stored has
      the key of some stored object. */
  lemma SuccessfulPassExactIff<O>(d: Kind<O>, o: Objs<O>, s: Store<O>, ms: seq<Pass<O>>, end: Pass<O>)
    requires Keyed(d, o) && WellFiled(d, s) && Reaches(d, o, s, ms, end) && end.pc == Succeeded
    ensures end.store.routes.Keys == DesiredKeys(d, o) <==> LiveKeys(d, o, s.routes) <= DesiredKeys(d, o)
  {
    SuccessfulPass(d, o, s, ms, end);
  }
}
