/** The chain of module Convergence comes to rest by itself: until ShutDown, as
    long as anything is pending or being processed, some part of it can go on;
    and every step but an event or a failure leaves less to do. */
module NeverStuck {
  import opened Prelude
  import opened Controllers
  import opened Convergence
  import P = DelayPipeline
  import WorkQueues
  import Runs

  /** Nothing but the one item is ever in the pipeline, and the inner queue is
      in order. */
  ghost predicate OnlyItem(pipe: P.Pipe<string>) {
    OnlyItemBefore(pipe) && pipe.q.dirty <= {ITEM} && pipe.q.Valid()
  }

  ghost predicate OnlyItemBefore(pipe: P.Pipe<string>) {
    && (forall c :: c in pipe.inFlight ==> c.Item() == ITEM)
    && (forall e :: e in pipe.chan ==> e.data == ITEM)
    && (pipe.hand.Some? ==> pipe.hand.value.data == ITEM)
    && (forall x :: x in pipe.waiting ==> x == ITEM)
  }

  lemma QueueStepBefore(pipe: P.Pipe<string>, s: P.Step<string>)
    requires OnlyItemBefore(pipe) && P.Enabled(pipe, s) && InsideQueue(s)
    ensures OnlyItemBefore(P.Apply(pipe, s))
    ensures P.Apply(pipe, s).q in {pipe.q, pipe.q.Add(ITEM), pipe.q.ShutDown()}
  {
  }

  lemma QueueStepKeepsOnlyItem(pipe: P.Pipe<string>, s: P.Step<string>)
    requires OnlyItem(pipe) && P.Enabled(pipe, s) && InsideQueue(s)
    ensures OnlyItem(P.Apply(pipe, s))
  {
    QueueStepBefore(pipe, s);
    WorkQueues.AddKeepsValid(pipe.q, ITEM);
  }

  lemma StepKeepsOnlyItem<O, E, M>(c: Controller<O, E, M>, p: Chain<O, M>, s: Step<E, M>)
    requires OnlyItem(p.pipe) && Inv(c, p) && Enabled(c, p, s)
    ensures OnlyItem(Apply(c, p, s).pipe)
  {
    match s
    case Queue(q) => QueueStepKeepsOnlyItem(p.pipe, q);
    case Fetch => WorkQueues.GetKeepsValid(p.pipe.q);
    case Finish => WorkQueues.DoneKeepsValidIff(p.pipe.q, ITEM);
    case _ =>
  }

  lemma {:induction false} RunKeepsOnlyItem<O(!new), E(!new), M(!new)>(c: Controller<O, E, M>, ss: seq<Step<E, M>>)
    requires Lawful(c) && IsRun(c, ss)
    ensures OnlyItem(After(c, ss).pipe)
  {
    if ss != [] {
      LastStep(c, ss);
      RunKeepsOnlyItem(c, ss[..|ss| - 1]);
      RunKeepsInv(c, ss[..|ss| - 1]);
      StepKeepsOnlyItem(c, After(c, ss[..|ss| - 1]), ss[|ss| - 1]);
    }
  }

  // How much is left to do, if nothing fails

  function StageLeft(w: Worker): nat {
    match w
    case Idle => 0
    case Requeued => 1
    case Reconciling => 2
  }

  /** The way to the worker that the requests still have to go. */
  function WayLeft<O, M>(p: Chain<O, M>): nat {
    6 * p.owing + PipeLeft(p.pipe)
  }

  function PipeLeft(pipe: P.Pipe<string>): nat {
    5 * |pipe.inFlight| + 4 * |pipe.chan| + (if pipe.hand.Some? then 3 else 0) + 2 * |pipe.waiting| + |pipe.q.dirty|
  }

  /** Less is left in p' than in p. */
  predicate Closer<O, E, M>(c: Controller<O, E, M>, p': Chain<O, M>, p: Chain<O, M>) {
    if MustRequeue(c, p') != MustRequeue(c, p) then MustRequeue(c, p)
    else if WayLeft(p') != WayLeft(p) then WayLeft(p') < WayLeft(p)
    else if p'.worker != p.worker then StageLeft(p'.worker) < StageLeft(p.worker)
    else Less(c.left(p'.m), c.left(p.m))
  }

  ghost predicate Reachable<O, E, M>(c: Controller<O, E, M>, p: Chain<O, M>) {
    Inv(c, p) && OnlyItem(p.pipe) && Running(p)
  }

  lemma RunIsReachable<O(!new), E(!new), M(!new)>(c: Controller<O, E, M>, ss: seq<Step<E, M>>)
    requires Lawful(c) && IsRun(c, ss) && !After(c, ss).pipe.q.shuttingDown
    ensures Reachable(c, After(c, ss))
  {
    RunKeepsInv(c, ss);
    RunKeepsOnlyItem(c, ss);
    ClosedMeansShutDown(c, ss);
  }

  /** Neither an event from outside nor ShutDown. */
  predicate Own<E, M>(s: Step<E, M>) {
    !s.Handle? && s != Queue(P.ShutDown)
  }

  /** ... and not a step of reconcile that fails. */
  predicate Clean<O, E, M>(c: Controller<O, E, M>, s: Step<E, M>) {
    Own(s) && (s.Work? ==> !c.failed(s.next))
  }

  // Every clean step leaves less to do

  lemma SendShrinks(pipe: P.Pipe<string>, c: P.Call<string>)
    requires c in pipe.inFlight
    ensures PipeLeft(P.Apply(pipe, P.Send(c))) < PipeLeft(pipe)
  {
    assert |pipe.inFlight - multiset{c}| == |pipe.inFlight| - 1;
  }

  lemma TreatShrinks(pipe: P.Pipe<string>, now: int)
    requires pipe.hand.Some?
    ensures PipeLeft(P.Apply(pipe, P.Treat(now))) < PipeLeft(pipe)
  {
    var w, e := pipe.waiting, pipe.hand.value;
    assert P.InsertEarliest(w, e).Keys == w.Keys + {e.data};
    assert |w.Keys + {e.data}| <= |w.Keys| + 1;
  }

  lemma ReleaseShrinks(pipe: P.Pipe<string>, x: string, now: int)
    requires x in pipe.waiting
    ensures PipeLeft(P.Apply(pipe, P.Release(x, now))) < PipeLeft(pipe)
  {
    assert (pipe.waiting - {x}).Keys == pipe.waiting.Keys - {x};
  }

  lemma QueueStepShrinks(pipe: P.Pipe<string>, s: P.Step<string>)
    requires P.Enabled(pipe, s) && InsideQueue(s) && !s.ShutDown? && !pipe.q.shuttingDown && !pipe.closed
    ensures PipeLeft(P.Apply(pipe, s)) < PipeLeft(pipe)
    ensures !P.Apply(pipe, s).q.shuttingDown && !P.Apply(pipe, s).closed
  {
    match s
    case Send(c) => SendShrinks(pipe, c);
    case Receive =>
    case Treat(now) => TreatShrinks(pipe, now);
    case Release(x, now) => ReleaseShrinks(pipe, x, now);
  }

  lemma FetchShrinks(pipe: P.Pipe<string>)
    requires OnlyItem(pipe) && P.Enabled(pipe, P.Get(ITEM))
    ensures PipeLeft(P.Apply(pipe, P.Get(ITEM))) < PipeLeft(pipe)
  {
    WorkQueues.GetKeepsValid(pipe.q);
  }

  lemma StepCloser<O, E, M>(c: Controller<O, E, M>, p: Chain<O, M>, s: Step<E, M>)
    requires Running(p) && OnlyItem(p.pipe) && Enabled(c, p, s) && Clean(c, s)
    requires s.Work? ==> Less(c.left(s.next), c.left(p.m)) && !c.failed(p.m)
    requires s.Fetch? ==> !c.failed(c.begin(p.m))
    requires c.succeeded(p.m) ==> !c.failed(p.m)
    ensures Closer(c, Apply(c, p, s), p) && Running(Apply(c, p, s))
  {
    match s
    case Queue(q) => QueueStepShrinks(p.pipe, q);
    case Fetch => FetchShrinks(p.pipe);
    case _ =>
  }

  /** Every clean step leaves less to do. */
  lemma CleanStepCloser<O(!new), E(!new), M(!new)>(c: Controller<O, E, M>, p: Chain<O, M>, s: Step<E, M>)
    requires Lawful(c) && Terminating(c) && Reachable(c, p) && Enabled(c, p, s) && Clean(c, s)
    ensures Closer(c, Apply(c, p, s), p) && Reachable(c, Apply(c, p, s))
  {
    StepKeepsInv(c, p, s);
    StepKeepsOnlyItem(c, p, s);
    StepCloser(c, p, s);
  }

  // There is always a clean step, until all is quiet

  lemma WorkerCanGoOn<O(!new), E(!new), M(!new)>(c: Controller<O, E, M>, p: Chain<O, M>) returns (s: Step<E, M>)
    requires Terminating(c) && Reachable(c, p) && !p.worker.Idle?
    ensures Enabled(c, p, s) && Clean(c, s)
  {
    if p.worker.Requeued? || c.succeeded(p.m) {
      s := Finish;
    } else if c.failed(p.m) {
      s := Requeue(P.Immediate(ITEM));
    } else {
      var next :| c.step(p.o, p.m, next) && !c.failed(next);
      s := Work(next);
    }
  }

  /** A pending request can move on towards an idle worker. */
  lemma PipeCanGoOn(pipe: P.Pipe<string>) returns (s: P.Step<string>)
    requires OnlyItem(pipe) && P.Pending(pipe, ITEM) && pipe.q.processing == {}
    ensures P.Enabled(pipe, s) && (s == P.Get(ITEM) || s.Treat? || s.Receive? || s.Send? || s.Release?)
  {
    if pipe.hand.Some? {
      s := P.Treat(0);
    } else if pipe.chan != [] {
      s := P.Receive;
    } else if c :| c in pipe.inFlight {
      s := P.Send(c);
    } else if ITEM in pipe.waiting {
      s := P.Release(ITEM, pipe.waiting[ITEM]);
    } else {
      s := P.Get(ITEM);
      assert ITEM in Elements(pipe.q.queue);
      assert pipe.q.queue[0] in Elements(pipe.q.queue);
    }
  }

  /** The next thing to do for a chain that is not quiet. */
  lemma NextMove<O(!new), E(!new), M(!new)>(c: Controller<O, E, M>, p: Chain<O, M>) returns (s: Step<E, M>)
    requires Terminating(c) && Reachable(c, p) && !Quiescent(p)
    ensures Enabled(c, p, s) && Clean(c, s)
  {
    if p.owing > 0 {
      s := CallDirty(P.Immediate(ITEM));
    } else if !p.worker.Idle? {
      s := WorkerCanGoOn(c, p);
    } else {
      var q := PipeCanGoOn(p.pipe);
      s := if q == P.Get(ITEM) then Fetch else Queue(q);
    }
  }

  /** To be quiet is to be at rest: no own step is possible just then. */
  lemma QuietIffAtRest<O(!new), E(!new), M(!new)>(c: Controller<O, E, M>, p: Chain<O, M>)
    requires Terminating(c) && Reachable(c, p)
    ensures Quiescent(p) <==> forall s :: Own(s) ==> !Enabled(c, p, s)
  {
    if Quiescent(p) {
      forall s: Step<E, M> | Own(s)
        ensures !Enabled(c, p, s)
      {
        QuietHasNoStep(c, p, s);
      }
    } else {
      var s := NextMove(c, p);
      assert Own(s);
    }
  }

  lemma EntriesArePending(pipe: P.Pipe<string>)
    requires OnlyItem(pipe)
    ensures pipe.chan != [] || pipe.q.queue != [] || pipe.inFlight != multiset{} ==> P.Pending(pipe, ITEM)
  {
    if pipe.chan != [] {
      assert pipe.chan[0] in pipe.chan;
    } else if pipe.q.queue != [] {
      WorkQueues.GetKeepsValid(pipe.q);
    } else if pipe.inFlight != multiset{} {
      var c :| c in pipe.inFlight;
    }
  }

  lemma QuietHasNoStep<O, E, M>(c: Controller<O, E, M>, p: Chain<O, M>, s: Step<E, M>)
    requires Reachable(c, p) && Quiescent(p) && Own(s)
    ensures !Enabled(c, p, s)
  {
    EntriesArePending(p.pipe);
  }

  // So it settles

  /** An endless schedule: at(i + 1) is reached from at(i) by the clean step
      via(i), as long as there is something to do. */
  ghost predicate Schedule<O, E, M>(c: Controller<O, E, M>, at: nat -> Chain<O, M>, via: nat -> Step<E, M>) {
    forall i: nat :: Quiescent(at(i)) || Takes(c, at(i), via(i), at(i + 1))
  }

  predicate Takes<O(==), E, M(==)>(c: Controller<O, E, M>, p: Chain<O, M>, s: Step<E, M>, p': Chain<O, M>) {
    Enabled(c, p, s) && Clean(c, s) && p' == Apply(c, p, s)
  }

  lemma {:induction false} SettlesFrom<O(!new), E(!new), M(!new)>(
    c: Controller<O, E, M>, at: nat -> Chain<O, M>, via: nat -> Step<E, M>, i: nat)
    returns (n: nat)
    requires Lawful(c) && Terminating(c) && Schedule(c, at, via) && Reachable(c, at(i))
    ensures n >= i && Quiescent(at(n)) && Reachable(c, at(n))
    decreases MustRequeue(c, at(i)), WayLeft(at(i)), StageLeft(at(i).worker),
              c.left(at(i).m).0, c.left(at(i).m).1, c.left(at(i).m).2
  {
    if Quiescent(at(i)) {
      n := i;
    } else {
      assert Takes(c, at(i), via(i), at(i + 1));
      CleanStepCloser(c, at(i), via(i));
      n := SettlesFrom(c, at, via, i + 1);
    }
  }

  /** Settling is inevitable: from wherever a run has come before ShutDown, once
      events and failures cease, every schedule whatever comes to rest, and the
      route store is then as a successful pass leaves it. */
  lemma SettlesInevitably<O(!new), E(!new), M(!new)>(
    c: Controller<O, E, M>, ss: seq<Step<E, M>>, at: nat -> Chain<O, M>, via: nat -> Step<E, M>)
    returns (n: nat)
    requires Lawful(c) && Terminating(c)
    requires IsRun(c, ss) && !After(c, ss).pipe.q.shuttingDown
    requires at(0) == After(c, ss) && Schedule(c, at, via)
    ensures Quiescent(at(n)) && c.settled(at(n).o, at(n).m)
  {
    RunIsReachable(c, ss);
    n := SettlesFrom(c, at, via, 0);
  }

  predicate AllClean<O, E, M>(c: Controller<O, E, M>, ss: seq<Step<E, M>>) {
    forall i :: 0 <= i < |ss| ==> Clean(c, ss[i])
  }

  /** The clean steps `ss` lead from p to rest. */
  ghost predicate BringsToRest<O, E, M>(c: Controller<O, E, M>, p: Chain<O, M>, ss: seq<Step<E, M>>) {
    && AllClean(c, ss)
    && Runs.IsRun(Steps(c), p, ss)
    && Quiescent(Runs.After(Steps(c), p, ss)) && Running(Runs.After(Steps(c), p, ss))
  }

  lemma OneStepBefore<O, E, M>(c: Controller<O, E, M>, p: Chain<O, M>, s: Step<E, M>, rest: seq<Step<E, M>>)
    requires Enabled(c, p, s) && Clean(c, s) && BringsToRest(c, Apply(c, p, s), rest)
    ensures BringsToRest(c, p, [s] + rest)
  {
    Runs.Prepend(Steps(c), p, s, rest);
  }

  /** A clean step from p that leaves less to do. */
  ghost predicate Advances<O, E, M>(c: Controller<O, E, M>, p: Chain<O, M>, s: Step<E, M>) {
    Enabled(c, p, s) && Clean(c, s) && Closer(c, Apply(c, p, s), p) && Reachable(c, Apply(c, p, s))
  }

  /** Whatever is not quiet can advance. */
  ghost predicate CanAdvance<O(!new), E(!new), M(!new)>(c: Controller<O, E, M>) {
    forall p :: Reachable(c, p) && !Quiescent(p) ==> exists s :: Advances(c, p, s)
  }

  lemma EverythingCanAdvance<O(!new), E(!new), M(!new)>(c: Controller<O, E, M>)
    requires Lawful(c) && Terminating(c)
    ensures CanAdvance(c)
  {
    forall p | Reachable(c, p) && !Quiescent(p)
      ensures exists s :: Advances(c, p, s)
    {
      var s := NextMove(c, p);
      CleanStepCloser(c, p, s);
      assert Advances(c, p, s);
    }
  }

  lemma {:induction false} CanSettleFrom<O(!new), E(!new), M(!new)>(c: Controller<O, E, M>, p: Chain<O, M>)
    returns (ss: seq<Step<E, M>>)
    requires CanAdvance(c) && Reachable(c, p)
    ensures BringsToRest(c, p, ss)
    decreases MustRequeue(c, p), WayLeft(p), StageLeft(p.worker), c.left(p.m).0, c.left(p.m).1, c.left(p.m).2
  {
    if Quiescent(p) {
      ss := [];
    } else {
      var s :| Advances(c, p, s);
      var rest := CanSettleFrom(c, Apply(c, p, s));
      OneStepBefore(c, p, s, rest);
      ss := [s] + rest;
    }
  }

  /** And such a schedule exists: every run before ShutDown can be continued to
      rest. */
  lemma CanAlwaysSettle<O(!new), E(!new), M(!new)>(c: Controller<O, E, M>, ss: seq<Step<E, M>>)
    returns (more: seq<Step<E, M>>)
    requires Lawful(c) && Terminating(c) && IsRun(c, ss) && !After(c, ss).pipe.q.shuttingDown
    ensures AllClean(c, more) && IsRun(c, ss + more)
    ensures Quiescent(After(c, ss + more)) && !After(c, ss + more).pipe.q.shuttingDown
    ensures After(c, ss + more) == Runs.After(Steps(c), After(c, ss), more) && Runs.IsRun(Steps(c), After(c, ss), more)
  {
    RunIsReachable(c, ss);
    EverythingCanAdvance(c);
    more := CanSettleFrom(c, After(c, ss));
    Runs.Concat(Steps(c), Hatch(c), ss, more);
  }

  // What events do and what the own steps keep

  /** A run that is at rest, before ShutDown. */
  ghost predicate AtRest<O, E, M>(c: Controller<O, E, M>, ss: seq<Step<E, M>>) {
    IsRun(c, ss) && !After(c, ss).pipe.q.shuttingDown && Quiescent(After(c, ss))
  }

  /** An event may come at any time, and moves the stores as the handler does. */
  lemma EventComes<O, E, M>(c: Controller<O, E, M>, ss: seq<Step<E, M>>, e: E)
    requires IsRun(c, ss) && c.allowed(After(c, ss).o, After(c, ss).m, e)
    ensures IsRun(c, ss + [Handle(e)])
    ensures var p, p' := After(c, ss), After(c, ss + [Handle(e)]);
            p'.o == c.handled(p.o, e) && p'.m == p.m && p'.pipe == p.pipe
  {
    Runs.Extend(Steps(c), Hatch(c), ss, Handle(e));
  }

  /** `kept` survives every step of a pass. */
  ghost predicate KeptByPass<O(!new), E, M(!new)>(c: Controller<O, E, M>, kept: (O, M) -> bool) {
    && (forall o, m :: kept(o, m) ==> kept(o, c.begin(m)))
    && (forall o, m, m' :: kept(o, m) && c.step(o, m, m') ==> kept(o, m'))
  }

  lemma {:induction false} OwnStepsKeep<O(!new), E, M(!new)>(
    c: Controller<O, E, M>, kept: (O, M) -> bool, p: Chain<O, M>, ss: seq<Step<E, M>>)
    requires KeptByPass(c, kept) && kept(p.o, p.m) && AllClean(c, ss) && Runs.IsRun(Steps(c), p, ss)
    ensures var p' := Runs.After(Steps(c), p, ss); p'.o == p.o && kept(p'.o, p'.m)
  {
    if ss != [] {
      OwnStepsKeep(c, kept, p, ss[..|ss| - 1]);
      assert Clean(c, ss[|ss| - 1]);
    }
  }

  /** Every run before ShutDown comes to rest over the stores it has, and what a
      pass keeps is kept. */
  lemma ComesToRest<O(!new), E(!new), M(!new)>(c: Controller<O, E, M>, kept: (O, M) -> bool, ss: seq<Step<E, M>>)
    returns (more: seq<Step<E, M>>)
    requires Lawful(c) && Terminating(c) && KeptByPass(c, kept)
    requires IsRun(c, ss) && !After(c, ss).pipe.q.shuttingDown && kept(After(c, ss).o, After(c, ss).m)
    ensures AtRest(c, ss + more) && After(c, ss + more).o == After(c, ss).o
    ensures kept(After(c, ss + more).o, After(c, ss + more).m)
  {
    more := CanAlwaysSettle(c, ss);
    OwnStepsKeep(c, kept, After(c, ss), more);
  }
}
