/** A controller as the queue in front of it sees it: object stores of type O
    that handlers of events E change, and a reconcile pass M that reads them
    step by step (package `pkg/controller`). */
module Controllers {

  datatype Controller<!O, !E, !M> = Controller(
    objects: O,                     // the stores at the start
    idle: M,                        // the pass at the start: none has run
    allowed: (O, M, E) -> bool,     // the events that may occur, and when
    handled: (O, E) -> O,           // the stores after an event
    callsDirty: (O, E) -> bool,     // whether its handler goes on to call Dirty
    begin: M -> M,                  // a new pass over the same route store
    step: (O, M, M) -> bool,        // one step of it, reading the stores as they are
    succeeded: M -> bool,
    failed: M -> bool,
    sound: (O, M) -> bool,          // what always holds
    progress: (O, M) -> bool,       // how far the pass has come over the present stores
    settled: (O, M) -> bool,        // what a successful pass achieves
    left: M -> (nat, nat, nat))     // what the pass still has to do

  predicate Less(a: (nat, nat, nat), b: (nat, nat, nat)) {
    a.0 < b.0 || (a.0 == b.0 && (a.1 < b.1 || (a.1 == b.1 && a.2 < b.2)))
  }

  /** Handlers keep what always holds, and change nothing without calling
      Dirty. */
  ghost predicate HandlersLawful<O(!new), E(!new), M(!new)>(c: Controller<O, E, M>) {
    && (forall o, e, m :: c.sound(o, m) && c.allowed(o, m, e) ==> c.sound(c.handled(o, e), m))
    && (forall o, e :: !c.callsDirty(o, e) ==> c.handled(o, e) == o)
  }

  /** A pass over unchanging stores keeps what always holds, and makes progress
      from its begin on. */
  ghost predicate PassKeeps<O(!new), E, M(!new)>(c: Controller<O, E, M>) {
    && (forall o, m :: c.sound(o, m) ==> c.sound(o, c.begin(m)) && c.progress(o, c.begin(m)))
    && (forall o, m, m' :: c.sound(o, m) && c.step(o, m, m') ==> c.sound(o, m'))
    && (forall o, m, m' :: c.sound(o, m) && c.progress(o, m) && c.step(o, m, m') ==> c.progress(o, m'))
  }

  /** It ends when it has succeeded or failed, and has then achieved what a
      success should. */
  ghost predicate PassEnds<O(!new), E, M(!new)>(c: Controller<O, E, M>) {
    && (forall m :: !c.failed(c.begin(m)))
    && (forall o, m :: c.sound(o, m) && c.progress(o, m) && c.succeeded(m) ==> c.settled(o, m))
    && (forall o, m, m' :: c.step(o, m, m') ==> !c.failed(m) && !c.succeeded(m))
    && (forall m :: c.succeeded(m) ==> !c.failed(m))
  }

  ghost predicate PassLawful<O(!new), E, M(!new)>(c: Controller<O, E, M>) {
    PassKeeps(c) && PassEnds(c)
  }

  ghost predicate Lawful<O(!new), E(!new), M(!new)>(c: Controller<O, E, M>) {
    HandlersLawful(c) && PassLawful(c) && c.sound(c.objects, c.idle) && c.settled(c.objects, c.idle)
  }

  /** A pass that has not ended can take a step that does not fail, and every
      such step leaves less to do. */
  ghost predicate Terminating<O(!new), E, M(!new)>(c: Controller<O, E, M>) {
    && (forall o, m :: c.sound(o, m) && !c.succeeded(m) && !c.failed(m) ==>
          exists m' :: c.step(o, m, m') && !c.failed(m'))
    && (forall o, m, m' :: c.sound(o, m) && c.step(o, m, m') && !c.failed(m') ==> Less(c.left(m'), c.left(m)))
  }
}
