/** The whole chain from an event to the route store, in every interleaving and
    for any lawful controller: handlers change object stores and then call
    Dirty, the request makes its way through the rate-limited delaying queue,
    and the worker fetches it and reconciles step by step while the handlers go
    on (`pkg/util/reconciler.go`, `pkg/util/dirty_reconciler.go`, the handlers
    of package `pkg/controller` and the queues below them). */
module Convergence {
  import opened Controllers
  import P = DelayPipeline
  import Runs

  const ITEM := "dirty"

  /** Between passes; inside reconcile, or back from it with its result; or
      about to call Done after requeueing. */
  datatype Worker = Idle | Reconciling | Requeued

  datatype Chain<O, M> = Chain(
    o: O,                  // the object stores
    owing: nat,            // handlers that changed a store and have not yet called Dirty
    pipe: P.Pipe<string>,  // the queue with its delaying front
    worker: Worker,
    m: M)                  // the worker's pass with the route store

  function Hatch<O, E, M>(c: Controller<O, E, M>): Chain<O, M> {
    Chain(c.objects, 0, P.Start(), Idle, c.idle)
  }

  /** A `call` is one of AddAfter with whatever delay the limiter answered. */
  datatype Step<E, M> =
    | Handle(e: E)                        // a handler treats an event, up to its call of Dirty
    | CallDirty(call: P.Call<string>)     // ... and calls Dirty
    | DirtyRefused                        // ... in vain, after ShutDown
    | Queue(s: P.Step<string>)            // a step inside the delaying queue, or ShutDown
    | Fetch                               // Get returns the item
    | Work(next: M)                       // a step of reconcile
    | Requeue(call: P.Call<string>)       // after an error: AddRateLimited
    | RequeueRefused
    | Finish                              // Forget on success; Done

  predicate InsideQueue(s: P.Step<string>) {
    s.Send? || s.Abandon? || s.Receive? || s.Treat? || s.Release? || s.Discard? || s.ShutDown? || s.Close?
  }

  predicate Enabled<O, E, M>(c: Controller<O, E, M>, p: Chain<O, M>, s: Step<E, M>) {
    match s
    case Handle(e) => c.allowed(p.o, p.m, e)
    case CallDirty(call) => p.owing > 0 && call.Item() == ITEM && P.Enabled(p.pipe, P.Request(call))
    case DirtyRefused => p.owing > 0 && p.pipe.q.shuttingDown
    case Queue(q) => InsideQueue(q) && P.Enabled(p.pipe, q)
    case Fetch => p.worker.Idle? && P.Enabled(p.pipe, P.Get(ITEM))
    case Work(next) => p.worker.Reconciling? && c.step(p.o, p.m, next)
    case Requeue(call) => MustRequeue(c, p) && call.Item() == ITEM && P.Enabled(p.pipe, P.Request(call))
    case RequeueRefused => MustRequeue(c, p) && p.pipe.q.shuttingDown
    case Finish => p.worker.Requeued? || (p.worker.Reconciling? && c.succeeded(p.m))
  }

  function Apply<O, E, M>(c: Controller<O, E, M>, p: Chain<O, M>, s: Step<E, M>): Chain<O, M> {
    match s
    case Handle(e) =>
      p.(o := c.handled(p.o, e), owing := if c.callsDirty(p.o, e) then p.owing + 1 else p.owing)
    case CallDirty(call) =>
      p.(owing := if p.owing > 0 then p.owing - 1 else 0, pipe := P.Apply(p.pipe, P.Request(call)))
    case DirtyRefused => p.(owing := if p.owing > 0 then p.owing - 1 else 0)
    case Queue(q) => p.(pipe := P.Apply(p.pipe, q))
    case Fetch => p.(worker := Reconciling, m := c.begin(p.m), pipe := P.Apply(p.pipe, P.Get(ITEM)))
    case Work(next) => p.(m := next)
    case Requeue(call) => p.(worker := Requeued, pipe := P.Apply(p.pipe, P.Request(call)))
    case RequeueRefused => p.(worker := Requeued)
    case Finish => p.(worker := Idle, pipe := P.Apply(p.pipe, P.Done(ITEM)))
  }

  function Steps<O, E, M>(c: Controller<O, E, M>): Runs.System<Chain<O, M>, Step<E, M>> {
    Runs.System((p, s) => Enabled(c, p, s), (p, s) => Apply(c, p, s))
  }

  predicate IsRun<O, E, M>(c: Controller<O, E, M>, ss: seq<Step<E, M>>) {
    Runs.IsRun(Steps(c), Hatch(c), ss)
  }

  function After<O, E, M>(c: Controller<O, E, M>, ss: seq<Step<E, M>>): Chain<O, M> {
    Runs.After(Steps(c), Hatch(c), ss)
  }

  lemma LastStep<O, E, M>(c: Controller<O, E, M>, ss: seq<Step<E, M>>)
    requires ss != []
    ensures var init, s := ss[..|ss| - 1], ss[|ss| - 1];
            && After(c, ss) == Apply(c, After(c, init), s)
            && (IsRun(c, ss) <==> IsRun(c, init) && Enabled(c, After(c, init), s))
  {
  }

  // Nothing is lost on the way

  predicate MustRequeue<O, E, M>(c: Controller<O, E, M>, p: Chain<O, M>) {
    p.worker.Reconciling? && c.failed(p.m)
  }

  /** The request is on its way to the worker, or the worker is about to send
      it again. */
  predicate OnItsWay<O, E, M>(c: Controller<O, E, M>, p: Chain<O, M>) {
    P.Pending(p.pipe, ITEM) || MustRequeue(c, p)
  }

  predicate Running<O, M>(p: Chain<O, M>) {
    !p.pipe.q.shuttingDown && !p.pipe.closed
  }

  predicate AsksForPass<O, E, M>(c: Controller<O, E, M>, s: Step<E, M>) {
    s.CallDirty? || (s.Work? && c.failed(s.next))
  }

  lemma StepKeepsOnItsWay<O, E, M>(c: Controller<O, E, M>, p: Chain<O, M>, s: Step<E, M>)
    requires Running(p) && Running(Apply(c, p, s)) && Enabled(c, p, s) && !s.Fetch?
    requires s.Work? || c.succeeded(p.m) ==> !c.failed(p.m)
    ensures OnItsWay(c, p) ==> OnItsWay(c, Apply(c, p, s))
    ensures AsksForPass(c, s) ==> OnItsWay(c, Apply(c, p, s))
  {
    var p' := Apply(c, p, s);
    match s
    case CallDirty(call) => assert call in p'.pipe.inFlight;
    case Requeue(call) => assert call in p'.pipe.inFlight;
    case Queue(q) =>
      if P.Pending(p.pipe, ITEM) {
        P.StepKeepsPending(p.pipe, q, ITEM);
      }
    case Finish =>
      if P.Pending(p.pipe, ITEM) {
        PendingDespiteDone(p.pipe);
      }
    case _ =>
  }

  lemma PendingDespiteDone(pipe: P.Pipe<string>)
    requires P.Pending(pipe, ITEM)
    ensures P.Pending(P.Apply(pipe, P.Done(ITEM)), ITEM)
  {
  }

  lemma StepKeepsShutDown<O, E, M>(c: Controller<O, E, M>, p: Chain<O, M>, s: Step<E, M>)
    requires Enabled(c, p, s) && (p.pipe.closed ==> p.pipe.q.shuttingDown)
    ensures var p' := Apply(c, p, s);
            && (p.pipe.q.shuttingDown ==> p'.pipe.q.shuttingDown)
            && (p'.pipe.closed ==> p'.pipe.q.shuttingDown)
  {
  }

  lemma {:induction false} ClosedMeansShutDown<O, E, M>(c: Controller<O, E, M>, ss: seq<Step<E, M>>)
    requires IsRun(c, ss)
    ensures After(c, ss).pipe.closed ==> After(c, ss).pipe.q.shuttingDown
  {
    if ss != [] {
      LastStep(c, ss);
      ClosedMeansShutDown(c, ss[..|ss| - 1]);
      StepKeepsShutDown(c, After(c, ss[..|ss| - 1]), ss[|ss| - 1]);
    }
  }

  lemma RunningBefore<O, E, M>(c: Controller<O, E, M>, ss: seq<Step<E, M>>)
    requires IsRun(c, ss) && ss != [] && !After(c, ss).pipe.q.shuttingDown
    ensures Running(After(c, ss)) && Running(After(c, ss[..|ss| - 1]))
  {
    var p, s := After(c, ss[..|ss| - 1]), ss[|ss| - 1];
    LastStep(c, ss);
    ClosedMeansShutDown(c, ss);
    ClosedMeansShutDown(c, ss[..|ss| - 1]);
    StepKeepsShutDown(c, p, s);
  }

  /** Dirty was called, or a reconcile failed, and the worker has not fetched
      the item since. */
  ghost predicate Owed<O, E, M>(c: Controller<O, E, M>, ss: seq<Step<E, M>>) {
    exists i :: 0 <= i < |ss| && AsksForPass(c, ss[i]) && forall j :: i < j < |ss| ==> !ss[j].Fetch?
  }

  lemma OwedStep<O, E, M>(c: Controller<O, E, M>, ss: seq<Step<E, M>>)
    requires ss != [] && Owed(c, ss)
    ensures var n := |ss| - 1; AsksForPass(c, ss[n]) || (!ss[n].Fetch? && Owed(c, ss[..n]))
  {
  }

  /** No event is lost across the layers: until ShutDown, whenever a call of
      Dirty or a failed reconcile has not been answered by a fetch, the item is
      in flight, in the channel, in the hands of the loop, waiting, or dirty in
      the inner queue, or the worker is about to requeue it. */
  lemma {:induction false} NothingLost<O(!new), E, M(!new)>(c: Controller<O, E, M>, ss: seq<Step<E, M>>)
    requires PassLawful(c)
    requires IsRun(c, ss) && !After(c, ss).pipe.q.shuttingDown && Owed(c, ss)
    ensures OnItsWay(c, After(c, ss))
  {
    var n := |ss| - 1;
    LastStep(c, ss);
    RunningBefore(c, ss);
    OwedStep(c, ss);
    if !AsksForPass(c, ss[n]) {
      NothingLost(c, ss[..n]);
    }
    StepKeepsOnItsWay(c, After(c, ss[..n]), ss[n]);
  }

  // Convergence

  predicate CaughtUp<O, E, M>(c: Controller<O, E, M>, p: Chain<O, M>) {
    if p.worker.Reconciling? then c.progress(p.o, p.m) else c.settled(p.o, p.m)
  }

  /** Either a pass is still due, or the routes are as far along as a pass over
      the present stores would have brought them. */
  predicate Inv<O, E, M>(c: Controller<O, E, M>, p: Chain<O, M>) {
    && c.sound(p.o, p.m)
    && p.pipe.q.processing == (if p.worker.Idle? then {} else {ITEM})
    && (Running(p) ==> p.owing > 0 || OnItsWay(c, p) || CaughtUp(c, p))
  }

  lemma InsideKeepsProcessing(pipe: P.Pipe<string>, s: P.Step<string>)
    requires InsideQueue(s)
    ensures P.Apply(pipe, s).q.processing == pipe.q.processing
  {
  }

  lemma QueueSideKeepsInv<O, E, M>(c: Controller<O, E, M>, p: Chain<O, M>, s: Step<E, M>)
    requires Inv(c, p) && Enabled(c, p, s) && (p.pipe.closed ==> p.pipe.q.shuttingDown)
    requires !s.Handle? && !s.Work? && !s.Fetch?
    requires c.succeeded(p.m) ==> !c.failed(p.m) && (c.progress(p.o, p.m) ==> c.settled(p.o, p.m))
    ensures Inv(c, Apply(c, p, s))
  {
    if Running(Apply(c, p, s)) {
      StepKeepsOnItsWay(c, p, s);
    }
    match s
    case Queue(q) => InsideKeepsProcessing(p.pipe, q);
    case Finish => assert p.pipe.q.processing - {ITEM} == {};
    case _ =>
  }

  lemma StepKeepsInv<O(!new), E(!new), M(!new)>(c: Controller<O, E, M>, p: Chain<O, M>, s: Step<E, M>)
    requires Lawful(c)
    requires Inv(c, p) && Enabled(c, p, s) && (p.pipe.closed ==> p.pipe.q.shuttingDown)
    ensures Inv(c, Apply(c, p, s))
  {
    match s
    case Handle(e) =>
    case Work(next) =>
    case Fetch =>
    case _ => QueueSideKeepsInv(c, p, s);
  }

  lemma {:induction false} RunKeepsInv<O(!new), E(!new), M(!new)>(c: Controller<O, E, M>, ss: seq<Step<E, M>>)
    requires Lawful(c) && IsRun(c, ss)
    ensures Inv(c, After(c, ss))
  {
    if ss != [] {
      LastStep(c, ss);
      RunKeepsInv(c, ss[..|ss| - 1]);
      ClosedMeansShutDown(c, ss[..|ss| - 1]);
      StepKeepsInv(c, After(c, ss[..|ss| - 1]), ss[|ss| - 1]);
    }
  }

  /** No handler is under way, nothing is pending anywhere in the queue and
      nothing is being processed. */
  predicate Quiescent<O, M>(p: Chain<O, M>) {
    p.owing == 0 && !P.Pending(p.pipe, ITEM) && p.pipe.q.processing == {}
  }

  /** Convergence: in every run up to ShutDown, whenever all is quiet, the
      route store is as a successful pass over the present stores leaves it. */
  lemma QuietMeansSettled<O(!new), E(!new), M(!new)>(c: Controller<O, E, M>, ss: seq<Step<E, M>>)
    requires Lawful(c)
    requires IsRun(c, ss) && !After(c, ss).pipe.q.shuttingDown && Quiescent(After(c, ss))
    ensures var p := After(c, ss);
            p.worker.Idle? && c.sound(p.o, p.m) && c.settled(p.o, p.m)
  {
    RunKeepsInv(c, ss);
    ClosedMeansShutDown(c, ss);
  }

  /** Outside of reconcile, the last pass has ended, or none has run yet. */
  lemma {:induction false} PassHasEnded<O, E, M>(c: Controller<O, E, M>, ss: seq<Step<E, M>>)
    requires IsRun(c, ss)
    ensures var p := After(c, ss); p.worker.Reconciling? || p.m == c.idle || c.succeeded(p.m) || c.failed(p.m)
  {
    if ss != [] {
      LastStep(c, ss);
      PassHasEnded(c, ss[..|ss| - 1]);
    }
  }
}
