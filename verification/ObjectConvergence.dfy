/** The controllers of one object store (`pkg/controller/podsubnets.go`,
    `servicesubnet.go` and `apiservers.go`) in the chain of module Convergence:
    they are lawful, and the announced routes follow the cluster. */
module ObjectConvergence {
  import opened Routes
  import opened RouteStores
  import opened ClusterObjects
  import opened Listings
  import opened ObjectPass
  import opened Controllers
  import opened Convergence
  import opened NeverStuck
  import opened AirTime
  import opened ObjectRoutes

  type ObjectStep<O> = Convergence.Step<Event<O>, Pass<O>>

  /** What a controller makes of an event; and what is assumed of the objects
      admitted: that they are `good`, and, if `tidy`, that none takes a new route
      before its old one is forgotten. */
  datatype Handling<!O> = Handling(d: Kind<O>, notice: Event<O> -> Notice<O>, good: O -> bool, tidy: bool)

  /** The object is stored, announced, or listed to be announced. */
  predicate Mentions<O(==)>(o: Objs<O>, m: Pass<O>, x: O) {
    x in o.Values || x in m.store.routes.Values || (m.pc.Fill? && x in m.pc.todo)
  }

  predicate SameRoute<O>(d: Kind<O>, a: O, b: O) {
    d.nameOf(a) == d.nameOf(b) ==> d.keyOf(a) == d.keyOf(b)
  }

  /** An object has one route, wherever it is mentioned. */
  ghost predicate Agree<O(!new)>(d: Kind<O>, o: Objs<O>, m: Pass<O>) {
    forall a, b :: Mentions(o, m, a) && Mentions(o, m, b) ==> SameRoute(d, a, b)
  }

  /** The event does not bring an object with a new route while an old one is
      still mentioned. */
  ghost predicate TidyEvent<O(!new)>(h: Handling<O>, o: Objs<O>, m: Pass<O>, e: Event<O>) {
    h.notice(e).effect == Admit && h.d.nameOf(e.obj) !in o ==>
      forall a :: Mentions(o, m, a) ==> SameRoute(h.d, a, e.obj)
  }

  ghost predicate Allowed<O(!new)>(h: Handling<O>, o: Objs<O>, m: Pass<O>, e: Event<O>) {
    (h.notice(e).effect == Admit ==> h.good(e.obj)) && (h.tidy ==> TidyEvent(h, o, m, e))
  }

  /** A notice is about its own object. */
  ghost predicate Proper<O(!new)>(h: Handling<O>) {
    forall e :: h.notice(e).obj == e.obj && h.notice(e).key == h.d.nameOf(e.obj)
  }

  ghost predicate Ruled<O(!new)>(h: Handling<O>, o: Objs<O>, m: Pass<O>) {
    (forall x :: Mentions(o, m, x) ==> h.good(x)) && (h.tidy ==> Agree(h.d, o, m))
  }

  ghost predicate Sound<O(!new)>(h: Handling<O>, o: Objs<O>, m: Pass<O>) {
    Keyed(h.d, o) && Filed(h.d, m) && m.store.Consistent() && Ruled(h, o, m)
  }

  function PassLeft<O>(pc: Pc<O>): (nat, nat, nat) {
    match pc
    case Begin => (4, 0, 0)
    case Sweep(todo) => (3, |todo|, 0)
    case Fill(todo) => (2, |todo|, 0)
    case Succeeded => (1, 0, 0)
    case Failed => (0, 0, 0)
  }

  /** The controller, on runs that keep to these rules. */
  ghost function Single<O(!new)>(h: Handling<O>): Controller<Objs<O>, Event<O>, Pass<O>> {
    Controller(
      map[],
      Pass(Begin, Store(map[], [])),
      (o, m, e) => Allowed(h, o, m, e),
      (o, e) => Note(o, h.notice(e)),
      (o, e) => Note(o, h.notice(e)) != o,
      (m: Pass<O>) => m.(pc := Begin),
      (o, m, m') => ObjectPass.Step(h.d, o, m, m'),
      (m: Pass<O>) => m.pc.Succeeded?,
      (m: Pass<O>) => m.pc.Failed?,
      (o, m) => Sound(h, o, m),
      (o, m) => Progress(h.d, o, m),
      (o, m: Pass<O>) => Settled(h.d, o, m.store.routes),
      (m: Pass<O>) => PassLeft(m.pc))
  }

  // It is lawful

  /** A step of reconcile mentions no object that was not mentioned before. */
  lemma StepMentions<O>(d: Kind<O>, o: Objs<O>, m: Pass<O>, m': Pass<O>, x: O)
    requires ObjectPass.Step(d, o, m, m') && Mentions(o, m', x)
    ensures Mentions(o, m, x)
  {
    if m.pc.Sweep? && m.pc.todo == [] {
      ListedIffStored(m'.pc.todo, o);
    }
  }

  lemma StepKeepsSound<O(!new)>(h: Handling<O>, o: Objs<O>, m: Pass<O>, m': Pass<O>)
    requires Sound(h, o, m) && ObjectPass.Step(h.d, o, m, m')
    ensures Sound(h, o, m')
  {
    StepKeepsFiled(h.d, o, m, m');
    StepKeepsConsistent(h.d, o, m, m');
    forall x | Mentions(o, m', x)
      ensures Mentions(o, m, x)
    {
      StepMentions(h.d, o, m, m', x);
    }
  }

  lemma EventMentions<O(!new)>(h: Handling<O>, o: Objs<O>, e: Event<O>, m: Pass<O>, x: O)
    requires Proper(h) && Mentions(Note(o, h.notice(e)), m, x)
    ensures Mentions(o, m, x) || (x == e.obj && h.notice(e).effect == Admit && h.d.nameOf(x) !in o)
  {
  }

  lemma EventKeepsSound<O(!new)>(h: Handling<O>, o: Objs<O>, e: Event<O>, m: Pass<O>)
    requires Proper(h) && Sound(h, o, m) && Allowed(h, o, m, e)
    ensures Sound(h, Note(o, h.notice(e)), m)
  {
    forall x | Mentions(Note(o, h.notice(e)), m, x)
      ensures Mentions(o, m, x) || (x == e.obj && h.notice(e).effect == Admit && h.d.nameOf(x) !in o)
    {
      EventMentions(h, o, e, m, x);
    }
  }

  lemma BeginKeepsSound<O(!new)>(h: Handling<O>, o: Objs<O>, m: Pass<O>)
    requires Sound(h, o, m)
    ensures Sound(h, o, m.(pc := Begin)) && Progress(h.d, o, m.(pc := Begin))
  {
    assert forall x :: Mentions(o, m.(pc := Begin), x) ==> Mentions(o, m, x);
  }

  lemma HandlersAreLawful<O(!new)>(h: Handling<O>)
    requires Proper(h)
    ensures HandlersLawful(Single(h))
  {
    var c := Single(h);
    forall o, e, m | c.sound(o, m) && c.allowed(o, m, e)
      ensures c.sound(c.handled(o, e), m)
    {
      EventKeepsSound(h, o, e, m);
    }
  }

  lemma BeginIsLawful<O(!new)>(h: Handling<O>)
    ensures forall o: Objs<O>, m: Pass<O> :: Sound(h, o, m) ==>
              Sound(h, o, m.(pc := Begin)) && Progress(h.d, o, m.(pc := Begin))
  {
    forall o: Objs<O>, m: Pass<O> | Sound(h, o, m)
      ensures Sound(h, o, m.(pc := Begin)) && Progress(h.d, o, m.(pc := Begin))
    {
      BeginKeepsSound(h, o, m);
    }
  }

  lemma StepIsLawful<O(!new)>(h: Handling<O>)
    ensures forall o, m, m' :: Sound(h, o, m) && ObjectPass.Step(h.d, o, m, m') ==>
              Sound(h, o, m') && (Progress(h.d, o, m) ==> Progress(h.d, o, m'))
  {
    forall o, m, m' | Sound(h, o, m) && ObjectPass.Step(h.d, o, m, m')
      ensures Sound(h, o, m') && (Progress(h.d, o, m) ==> Progress(h.d, o, m'))
    {
      StepKeepsSound(h, o, m, m');
      if Progress(h.d, o, m) {
        StepKeepsProgress(h.d, o, m, m');
      }
    }
  }

  lemma PassIsKept<O(!new)>(h: Handling<O>)
    ensures PassKeeps(Single(h))
  {
    BeginIsLawful(h);
    StepIsLawful(h);
  }

  lemma PassDoesEnd<O(!new)>(h: Handling<O>)
    ensures PassEnds(Single(h))
  {
  }

  lemma SingleIsLawful<O(!new)>(h: Handling<O>)
    requires Proper(h)
    ensures Lawful(Single(h))
  {
    HandlersAreLawful(h);
    PassIsKept(h);
    PassDoesEnd(h);
  }

  lemma AllGood<O(!new)>(h: Handling<O>, o: Objs<O>, m: Pass<O>)
    requires Sound(h, o, m)
    ensures forall k :: k in o ==> h.good(o[k])
    ensures forall k :: k in m.store.routes ==> h.good(m.store.routes[k]) && h.d.keyOf(m.store.routes[k]) == k
  {
    assert forall k :: k in o ==> Mentions(o, m, o[k]);
    assert forall k :: k in m.store.routes ==> Mentions(o, m, m.store.routes[k]);
  }

  // It terminates

  lemma PassCanGoOn<O>(d: Kind<O>, o: Objs<O>, m: Pass<O>) returns (m': Pass<O>)
    requires !m.pc.Succeeded? && !m.pc.Failed?
    ensures ObjectPass.Step(d, o, m, m') && !m'.pc.Failed?
  {
    match m.pc
    case Begin =>
      var l := SetListing(m.store.routes.Values);
      m' := m.(pc := Sweep(l));
    case Sweep(todo) =>
      if todo == [] {
        var l := SetListing(o.Values);
        m' := m.(pc := Fill(l));
      } else {
        var next := Sweep(todo[1..]);
        m' := if d.nameOf(todo[0]) in o then m.(pc := next) else Withdrawing(d, m, todo[0], next, true);
      }
    case Fill(todo) =>
      m' := if todo == [] then m.(pc := Succeeded) else Announcing(d, m, todo[0], Fill(todo[1..]), true);
  }

  lemma PassStepShrinks<O>(d: Kind<O>, o: Objs<O>, m: Pass<O>, m': Pass<O>)
    requires ObjectPass.Step(d, o, m, m') && !m'.pc.Failed?
    ensures Less(PassLeft(m'.pc), PassLeft(m.pc))
  {
  }

  lemma SingleTerminates<O(!new)>(h: Handling<O>)
    ensures Terminating(Single(h))
  {
    var c := Single(h);
    forall o, m | c.sound(o, m) && !c.succeeded(m) && !c.failed(m)
      ensures exists m' :: c.step(o, m, m') && !c.failed(m')
    {
      var m' := PassCanGoOn(h.d, o, m);
      assert c.step(o, m, m') && !c.failed(m');
    }
    forall o, m, m' | c.sound(o, m) && c.step(o, m, m') && !c.failed(m')
      ensures Less(c.left(m'), c.left(m))
    {
      PassStepShrinks(h.d, o, m, m');
    }
  }

  // Convergence

  /** What is on the air, what the route store holds and what the object store
      asks for are the same. */
  ghost predicate Converged<O>(d: Kind<O>, o: Objs<O>, m: Pass<O>) {
    Outstanding(m.store.calls) == m.store.routes.Keys == DesiredKeys(d, o)
  }

  lemma SettledIsConverged<O(!new)>(h: Handling<O>, o: Objs<O>, m: Pass<O>)
    requires Sound(h, o, m) && Agree(h.d, o, m) && Settled(h.d, o, m.store.routes)
    ensures Converged(h.d, o, m)
  {
    forall k | k in m.store.routes
      ensures k in DesiredKeys(h.d, o)
    {
      var x := m.store.routes[k];
      assert o[h.d.nameOf(x)] in o.Values;
      assert Mentions(o, m, x) && Mentions(o, m, o[h.d.nameOf(x)]);
      assert SameRoute(h.d, x, o[h.d.nameOf(x)]);
    }
  }

  /** A quiet run, up to ShutDown. */
  ghost predicate QuietRun<O(!new)>(h: Handling<O>, ss: seq<ObjectStep<O>>) {
    IsRun(Single(h), ss) && !After(Single(h), ss).pipe.q.shuttingDown && Quiescent(After(Single(h), ss))
  }

  lemma QuietMeansRoutesSettled<O(!new)>(h: Handling<O>, ss: seq<ObjectStep<O>>)
    requires Proper(h) && QuietRun(h, ss)
    ensures var p := After(Single(h), ss); p.worker.Idle? && Sound(h, p.o, p.m) && Settled(h.d, p.o, p.m.store.routes)
  {
    SingleIsLawful(h);
    QuietMeansSettled(Single(h), ss);
  }

  /** Objects that satisfy `good` and have the same name have the same route. */
  ghost predicate KeyByName<O(!new)>(d: Kind<O>, good: O -> bool) {
    forall a, b :: good(a) && good(b) ==> SameRoute(d, a, b)
  }

  /** If an object takes a new route only when its old one is forgotten, or if
      good objects of one name have one route, then in every run up to ShutDown,
      whenever all is quiet, the routes on the air are those of the stored
      objects. */
  lemma QuietMeansConverged<O(!new)>(h: Handling<O>, ss: seq<ObjectStep<O>>)
    requires Proper(h) && (h.tidy || KeyByName(h.d, h.good)) && QuietRun(h, ss)
    ensures Converged(h.d, After(Single(h), ss).o, After(Single(h), ss).m)
  {
    QuietMeansRoutesSettled(h, ss);
    SettledIsConverged(h, After(Single(h), ss).o, After(Single(h), ss).m);
  }

  /** Whatever was dropped before a rest is forgotten: any object of that name
      may come. */
  lemma RestForgets<O(!new)>(h: Handling<O>, ss: seq<ObjectStep<O>>, e: Event<O>)
    requires Proper(h) && QuietRun(h, ss) && h.d.nameOf(e.obj) !in After(Single(h), ss).o
    ensures TidyEvent(h, After(Single(h), ss).o, After(Single(h), ss).m, e)
  {
    QuietMeansRoutesSettled(h, ss);
    PassHasEnded(Single(h), ss);
    var p := After(Single(h), ss);
    forall a | Mentions(p.o, p.m, a)
      ensures h.d.nameOf(a) in p.o
    {
      if a in p.m.store.routes.Values {
        assert Live(h.d, p.o, a);
      }
    }
  }

  // Runs that keep to rules

  /** Every event keeps to the rules of `h` at the point where it comes. */
  ghost predicate Abides<O(!new)>(h0: Handling<O>, h: Handling<O>, ss: seq<ObjectStep<O>>) {
    forall i :: 0 <= i < |ss| && ss[i].Handle? ==>
      var p := After(Single(h0), ss[..i]); Allowed(h, p.o, p.m, ss[i].e)
  }

  lemma AbidesSoFar<O(!new)>(h0: Handling<O>, h: Handling<O>, ss: seq<ObjectStep<O>>)
    requires ss != [] && Abides(h0, h, ss)
    ensures Abides(h0, h, ss[..|ss| - 1])
  {
    assert forall i :: 0 <= i < |ss| - 1 ==> ss[..|ss| - 1][..i] == ss[..i];
  }

  lemma {:induction false} RuledRun<O(!new)>(h0: Handling<O>, h: Handling<O>, ss: seq<ObjectStep<O>>)
    requires h.d == h0.d && h.notice == h0.notice && IsRun(Single(h0), ss) && Abides(h0, h, ss)
    ensures IsRun(Single(h), ss) && After(Single(h), ss) == After(Single(h0), ss)
  {
    if ss != [] {
      Convergence.LastStep(Single(h0), ss);
      Convergence.LastStep(Single(h), ss);
      AbidesSoFar(h0, h, ss);
      RuledRun(h0, h, ss[..|ss| - 1]);
    }
  }

  // On the air

  predicate Fills<O>(d: Kind<O>, m: Pass<O>, m': Pass<O>, k: RouteKey) {
    m.pc.Fill? && m.pc.todo != [] && !m'.pc.Failed? && d.keyOf(m.pc.todo[0]) == k
  }

  predicate Drops<O>(d: Kind<O>, o: Objs<O>, m: Pass<O>, m': Pass<O>, k: RouteKey) {
    m.pc.Sweep? && m.pc.todo != [] && !m'.pc.Failed? && d.keyOf(m.pc.todo[0]) == k && d.nameOf(m.pc.todo[0]) !in o
  }

  ghost function SingleAiring<O>(d: Kind<O>): Airing<Objs<O>, Pass<O>> {
    Airing((m: Pass<O>, k) => k in m.store.routes,
           (o, m, m', k) => Fills(d, m, m', k),
           (o, m, m', k) => Drops(d, o, m, m', k))
  }

  /** Step i added k for a stored object, and no sweep has found the object gone
      since. */
  ghost predicate UpSince<O(!new)>(h: Handling<O>, ss: seq<ObjectStep<O>>, i: nat, k: RouteKey)
    requires i < |ss|
  {
    AirTime.UpSince(Single(h), SingleAiring(h.d), ss, i, k)
  }

  lemma StepDecides<O>(d: Kind<O>, o: Objs<O>, m: Pass<O>, m': Pass<O>, k: RouteKey)
    requires ObjectPass.Step(d, o, m, m')
    ensures k in m'.store.routes <==> Fills(d, m, m', k) || (k in m.store.routes && !Drops(d, o, m, m', k))
  {
  }

  lemma SingleOnAirIff<O(!new)>(h: Handling<O>, ss: seq<ObjectStep<O>>, k: RouteKey)
    requires IsRun(Single(h), ss)
    ensures k in After(Single(h), ss).m.store.routes <==> exists i :: 0 <= i < |ss| && UpSince(h, ss, i, k)
  {
    var c, a := Single(h), SingleAiring(h.d);
    forall o, m, m', x | c.step(o, m, m')
      ensures a.up(m', x) == (a.fills(o, m, m', x) || (a.up(m, x) && !a.drops(o, m, m', x)))
    {
      StepDecides(h.d, o, m, m', x);
    }
    OnAirIff(c, a, ss, k);
    assert forall i :: 0 <= i < |ss| ==> UpSince(h, ss, i, k) == AirTime.UpSince(c, a, ss, i, k);
  }

  /** Whatever the objects do: when all is quiet, the routes on the air are those
      of the stored objects just when every key that was filled, and whose
      object no sweep has found gone since, is the route of some stored
      object. */
  lemma QuietConvergedIff<O(!new)>(h: Handling<O>, ss: seq<ObjectStep<O>>)
    requires Proper(h) && QuietRun(h, ss)
    ensures var p := After(Single(h), ss);
            Converged(h.d, p.o, p.m) <==>
            forall i, k :: 0 <= i < |ss| && UpSince(h, ss, i, k) ==> k in DesiredKeys(h.d, p.o)
  {
    QuietMeansRoutesSettled(h, ss);
    var p := After(Single(h), ss);
    forall k
      ensures k in p.m.store.routes <==> exists i :: 0 <= i < |ss| && UpSince(h, ss, i, k)
    {
      SingleOnAirIff(h, ss, k);
    }
  }

  // Up and down

  /** The first object appears, and the chain comes to rest. */
  lemma ObjectUp<O(!new)>(h: Handling<O>, x: O) returns (ss: seq<ObjectStep<O>>)
    requires Proper(h) && h.notice(Upsert(x)).effect == Admit && h.good(x)
    ensures QuietRun(h, ss) && After(Single(h), ss).o == map[h.d.nameOf(x) := x]
  {
    var c := Single(h);
    EventComes(c, [], Upsert(x));
    ss := [] + [Handle(Upsert(x))];
    SingleIsLawful(h);
    SingleTerminates(h);
    var more := ComesToRest(c, (o, m) => true, ss);
    ss := ss + more;
  }

  lemma RouteIsUp<O(!new)>(h: Handling<O>, x: O, ss: seq<ObjectStep<O>>)
    requires Proper(h) && QuietRun(h, ss) && After(Single(h), ss).o == map[h.d.nameOf(x) := x]
    ensures var p := After(Single(h), ss);
            && Outstanding(p.m.store.calls) == p.m.store.routes.Keys && h.d.keyOf(x) in p.m.store.routes
            && h.d.nameOf(p.m.store.routes[h.d.keyOf(x)]) == h.d.nameOf(x) && DesiredKeys(h.d, p.o) == {h.d.keyOf(x)}
  {
    QuietMeansRoutesSettled(h, ss);
    var p := After(Single(h), ss);
    assert h.d.keyOf(p.o[h.d.nameOf(x)]) in DesiredKeys(h.d, p.o);
    assert Live(h.d, p.o, p.m.store.routes[h.d.keyOf(x)]);
  }

  lemma NothingIsUp<O(!new)>(h: Handling<O>, ss: seq<ObjectStep<O>>)
    requires Proper(h) && QuietRun(h, ss) && After(Single(h), ss).o == map[]
    ensures After(Single(h), ss).m.store.routes == map[]
  {
    QuietMeansRoutesSettled(h, ss);
    assert AllLive(h.d, map[], After(Single(h), ss).m.store.routes);
  }

  lemma ObjectGoes<O(!new)>(h: Handling<O>, x: O, ss: seq<ObjectStep<O>>)
    requires Proper(h) && h.notice(Remove(x)).effect == Evict
    requires QuietRun(h, ss) && After(Single(h), ss).o == map[h.d.nameOf(x) := x]
    ensures IsRun(Single(h), ss + [Handle(Remove(x))])
    ensures var p := After(Single(h), ss + [Handle(Remove(x))]); p.o == map[] && !p.pipe.q.shuttingDown
  {
    EventComes(Single(h), ss, Remove(x));
  }

  lemma RestsEmpty<O(!new)>(h: Handling<O>, ss: seq<ObjectStep<O>>) returns (more: seq<ObjectStep<O>>)
    requires Proper(h) && IsRun(Single(h), ss)
    requires After(Single(h), ss).o == map[] && !After(Single(h), ss).pipe.q.shuttingDown
    ensures QuietRun(h, ss + more) && After(Single(h), ss + more).m.store.routes == map[]
  {
    SingleIsLawful(h);
    SingleTerminates(h);
    more := ComesToRest(Single(h), (o, m) => true, ss);
    NothingIsUp(h, ss + more);
  }

  /** The only object goes, and the chain comes to rest with no route left. */
  lemma ObjectDown<O(!new)>(h: Handling<O>, x: O, ss: seq<ObjectStep<O>>) returns (more: seq<ObjectStep<O>>)
    requires Proper(h) && h.notice(Remove(x)).effect == Evict
    requires QuietRun(h, ss) && After(Single(h), ss).o == map[h.d.nameOf(x) := x]
    ensures QuietRun(h, ss + more) && After(Single(h), ss + more).m.store.routes == map[]
  {
    ObjectGoes(h, x, ss);
    var rest := RestsEmpty(h, ss + [Handle(Remove(x))]);
    more := [Handle(Remove(x))] + rest;
    assert ss + more == ss + [Handle(Remove(x))] + rest;
  }

  // A leak

  /** The route k is live over the store and filed as x. */
  ghost predicate LiveAs<O(!new)>(h: Handling<O>, k: RouteKey, x: O, o: Objs<O>, m: Pass<O>) {
    Sound(h, o, m) && k in m.store.routes && m.store.routes[k] == x && Live(h.d, o, x)
  }

  lemma LiveStays<O(!new)>(h: Handling<O>, k: RouteKey, x: O, o: Objs<O>, m: Pass<O>, m': Pass<O>)
    requires LiveAs(h, k, x, o, m) && ObjectPass.Step(h.d, o, m, m')
    ensures LiveAs(h, k, x, o, m')
  {
    StepKeepsSound(h, o, m, m');
  }

  lemma LiveIsKept<O(!new)>(h: Handling<O>, k: RouteKey, x: O)
    ensures KeptByPass(Single(h), (o, m) => LiveAs(h, k, x, o, m))
  {
    var c, kept := Single(h), (o, m) => LiveAs(h, k, x, o, m);
    forall o, m | kept(o, m)
      ensures kept(o, c.begin(m))
    {
      BeginKeepsSound(h, o, m);
    }
    forall o, m, m' | kept(o, m) && c.step(o, m, m')
      ensures kept(o, m')
    {
      LiveStays(h, k, x, o, m, m');
    }
  }

  lemma RestsWithRoute<O(!new)>(h: Handling<O>, k: RouteKey, x: O, ss: seq<ObjectStep<O>>)
    returns (more: seq<ObjectStep<O>>)
    requires Proper(h) && IsRun(Single(h), ss) && !After(Single(h), ss).pipe.q.shuttingDown
    requires k in After(Single(h), ss).m.store.routes && After(Single(h), ss).m.store.routes[k] == x
    requires Live(h.d, After(Single(h), ss).o, x)
    ensures QuietRun(h, ss + more) && After(Single(h), ss + more).o == After(Single(h), ss).o
    ensures k in After(Single(h), ss + more).m.store.routes
  {
    SingleIsLawful(h);
    SingleTerminates(h);
    RunKeepsInv(Single(h), ss);
    LiveIsKept(h, k, x);
    more := ComesToRest(Single(h), (o, m) => LiveAs(h, k, x, o, m), ss);
  }

  lemma Replaced<O>(h: Handling<O>, before: O, after: O)
    requires h.notice(Upsert(after)) == Notice(h.d.nameOf(after), after, Admit)
    requires h.notice(Remove(before)) == Notice(h.d.nameOf(before), before, Evict)
    requires h.d.nameOf(before) == h.d.nameOf(after)
    ensures Note(Note(map[h.d.nameOf(before) := before], h.notice(Remove(before))), h.notice(Upsert(after)))
         == map[h.d.nameOf(after) := after]
  {
  }

  /** There is a run that comes to rest without converging, whatever is good: an
      object that is dropped and comes back with another route before the worker
      has looked leaves its old route on the air. */
  lemma ObjectLeaks<O(!new)>(h: Handling<O>, before: O, after: O) returns (ss: seq<ObjectStep<O>>)
    requires Proper(h) && !h.tidy && h.good(before) && h.good(after)
    requires h.notice(Upsert(before)).effect == h.notice(Upsert(after)).effect == Admit
    requires h.notice(Remove(before)).effect == Evict
    requires h.d.nameOf(before) == h.d.nameOf(after) && h.d.keyOf(before) != h.d.keyOf(after)
    ensures QuietRun(h, ss)
    ensures var p := After(Single(h), ss);
            && p.o == map[h.d.nameOf(after) := after] && !Converged(h.d, p.o, p.m)
            && h.d.keyOf(before) in Outstanding(p.m.store.calls) - DesiredKeys(h.d, p.o)
  {
    var ss0 := ObjectUp(h, before);
    RouteIsUp(h, before, ss0);
    var k := h.d.keyOf(before);
    EventComes(Single(h), ss0, Remove(before));
    EventComes(Single(h), ss0 + [Handle(Remove(before))], Upsert(after));
    Replaced(h, before, after);
    ss := ss0 + [Handle(Remove(before))] + [Handle(Upsert(after))];
    var more := RestsWithRoute(h, k, After(Single(h), ss0).m.store.routes[k], ss);
    ss := ss + more;
    RouteIsUp(h, after, ss);
  }

  // The controller of nodes

  /** On all runs.  Whatever the events, the nodes stored are annotated. */
  function NodesHandling(): (h: Handling<Node>)
    ensures forall o, m, e :: Allowed(h, o, m, e)
  {
    Handling(PodSubnets(), NodeNotice, (n: Node) => n.podSubnet.Some?, false)
  }

  /** If a node takes a new pod subnet or address only when its old route is
      forgotten, for example after a delete that has come to rest, then whenever
      all is quiet, the pod subnets on the air are those of the stored nodes. */
  lemma PodSubnetsConverge(ss: seq<ObjectStep<Node>>)
    requires QuietRun(NodesHandling(), ss) && Abides(NodesHandling(), NodesHandling().(tidy := true), ss)
    ensures var p := After(Single(NodesHandling()), ss);
            && Converged(PodSubnets(), p.o, p.m)
            && Outstanding(p.m.store.calls) == PodSubnetRoutes(p.o)
  {
    RuledRun(NodesHandling(), NodesHandling().(tidy := true), ss);
    QuietMeansConverged(NodesHandling().(tidy := true), ss);
    NodesAnnotated(ss);
  }

  lemma NodesAnnotated(ss: seq<ObjectStep<Node>>)
    requires QuietRun(NodesHandling(), ss)
    ensures var o := After(Single(NodesHandling()), ss).o;
            (forall k :: k in o ==> o[k].podSubnet.Some?) && DesiredKeys(PodSubnets(), o) == PodSubnetRoutes(o)
  {
    var p := After(Single(NodesHandling()), ss);
    QuietMeansRoutesSettled(NodesHandling(), ss);
    AllGood(NodesHandling(), p.o, p.m);
    DesiredAreSubnetRoutes(p.o);
  }

  /** The subnet and the address of the node are those `at` tells of its name. */
  predicate Conforms(at: ObjectKey -> RouteKey, n: Node) {
    n.podSubnet.Some? && RouteKey(n.podSubnet.value.ip, n.podSubnet.value.length, n.internalIP) == at(n.key)
  }

  /** In particular if no node ever changes them. */
  lemma StablePodSubnetsConverge(at: ObjectKey -> RouteKey, ss: seq<ObjectStep<Node>>)
    requires QuietRun(NodesHandling(), ss)
    requires forall i :: 0 <= i < |ss| && ss[i].Handle? && ss[i].e.obj.podSubnet.Some? ==> Conforms(at, ss[i].e.obj)
    ensures var p := After(Single(NodesHandling()), ss); Converged(PodSubnets(), p.o, p.m)
  {
    var h := NodesHandling().(good := n => Conforms(at, n));
    RuledRun(NodesHandling(), h, ss);
    QuietMeansConverged(h, ss);
  }

  /** A node that is deleted and comes back at once with another subnet or
      address leaks its old route. */
  lemma NodeLeaks(before: Node, after: Node) returns (ss: seq<ObjectStep<Node>>)
    requires before.podSubnet.Some? && after.podSubnet.Some? && before.key == after.key
    requires before.podSubnet != after.podSubnet || before.internalIP != after.internalIP
    ensures QuietRun(NodesHandling(), ss)
    ensures var p := After(Single(NodesHandling()), ss);
            var k := RouteKey(before.podSubnet.value.ip, before.podSubnet.value.length, before.internalIP);
            && p.o == map[after.key := after] && !Converged(PodSubnets(), p.o, p.m)
            && k in Outstanding(p.m.store.calls) - PodSubnetRoutes(p.o)
  {
    ss := ObjectLeaks(NodesHandling(), before, after);
    NodesAnnotated(ss);
  }

  // The two controllers of pods

  /** The pods of this host with the route `d` gives them.  Whatever the events,
      the pods stored are on the host. */
  function PodsHandling(d: Kind<Pod>, prefix: string, host: IPv4): (h: Handling<Pod>)
    ensures forall o, m, e :: Allowed(h, o, m, e)
  {
    Handling(d, e => PodNotice(prefix, host, e), (p: Pod) => p.hostIP == host, false)
  }

  function ProxiesHandling(subnet: Subnet, host: IPv4): Handling<Pod> {
    PodsHandling(ServiceSubnet(subnet), PROXY_PREFIX, host)
  }

  function MastersHandling(masterIP: IPv4, host: IPv4): Handling<Pod> {
    PodsHandling(APIServers(masterIP), APISERVER_PREFIX, host)
  }

  /** In every run, whenever all is quiet, the shared route is on the air just
      when some pod is stored. */
  lemma SharedRouteConverges(d: Kind<Pod>, prefix: string, host: IPv4, shared: RouteKey, ss: seq<ObjectStep<Pod>>)
    requires forall p: Pod :: d.nameOf(p) == p.key && (p.hostIP == host ==> d.keyOf(p) == shared)
    requires QuietRun(PodsHandling(d, prefix, host), ss)
    ensures var p := After(Single(PodsHandling(d, prefix, host)), ss);
            Outstanding(p.m.store.calls) == p.m.store.routes.Keys == if p.o == map[] then {} else {shared}
  {
    var h := PodsHandling(d, prefix, host);
    var p := After(Single(h), ss);
    QuietMeansConverged(h, ss);
    QuietMeansRoutesSettled(h, ss);
    AllGood(h, p.o, p.m);
    SharedKeys(d, host, shared, p.o, p.m.store.routes);
  }

  lemma ServiceSubnetConverges(subnet: Subnet, host: IPv4, ss: seq<ObjectStep<Pod>>)
    requires QuietRun(ProxiesHandling(subnet, host), ss)
    ensures var p := After(Single(ProxiesHandling(subnet, host)), ss);
            Outstanding(p.m.store.calls) == if p.o == map[] then {} else {RouteKey(subnet.ip, subnet.length, host)}
  {
    SharedRouteConverges(ServiceSubnet(subnet), PROXY_PREFIX, host, RouteKey(subnet.ip, subnet.length, host), ss);
  }

  lemma APIServersConverge(masterIP: IPv4, host: IPv4, ss: seq<ObjectStep<Pod>>)
    requires QuietRun(MastersHandling(masterIP, host), ss)
    ensures var p := After(Single(MastersHandling(masterIP, host)), ss);
            Outstanding(p.m.store.calls) == if p.o == map[] then {} else {RouteKey(masterIP, 32, host)}
  {
    SharedRouteConverges(APIServers(masterIP), APISERVER_PREFIX, host, RouteKey(masterIP, 32, host), ss);
  }
}
