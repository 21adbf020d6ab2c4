/** The condition variable of `pkg/forked/workqueue/queue.go`: callers of Get
    go to sleep on an empty queue, Add and Done signal one sleeper when they
    append, ShutDown wakes all.  Every step below runs under the queue's lock. */
module QueueWaiters {
  import opened WorkQueues
  import Runs

  type Caller = nat

  /** `woken` are the callers that were signalled and have not yet run the test
      of their wait loop again. */
  datatype Monitor<T(==)> = Monitor(q: QueueState<T>, asleep: set<Caller>, woken: set<Caller>)

  /** `pick` is the sleeper that a signal wakes, if there is any sleeper. */
  datatype Step<T> =
    | Add(x: T, pick: Caller)
    | Done(x: T, pick: Caller)
    | Enter(c: Caller)
    | Resume(c: Caller)
    | ShutDown

  function Signal<T(==)>(m: Monitor<T>, pick: Caller): Monitor<T> {
    if m.asleep == {} then m else m.(asleep := m.asleep - {pick}, woken := m.woken + {pick})
  }

  /** The test of the wait loop and what follows it. */
  function TryGet<T(==)>(m: Monitor<T>, c: Caller): Monitor<T> {
    if m.q.queue == [] && !m.q.shuttingDown then m.(asleep := m.asleep + {c})
    else if m.q.queue == [] then m
    else m.(q := m.q.Get())
  }

  predicate Enabled<T(==)>(m: Monitor<T>, s: Step<T>) {
    match s
    case Add(_, pick) => m.asleep != {} ==> pick in m.asleep
    case Done(_, pick) => m.asleep != {} ==> pick in m.asleep
    case Enter(c) => c !in m.asleep && c !in m.woken
    case Resume(c) => c in m.woken
    case ShutDown => true
  }

  function Apply<T(==)>(m: Monitor<T>, s: Step<T>): Monitor<T> {
    match s
    case Add(x, pick) =>
      var q' := m.q.Add(x);
      if q'.queue == m.q.queue then m.(q := q') else Signal(m.(q := q'), pick)
    case Done(x, pick) =>
      var m' := m.(q := m.q.Done(x));
      if x in m.q.dirty then Signal(m', pick) else m'
    case Enter(c) => TryGet(m, c)
    case Resume(c) => TryGet(m.(woken := m.woken - {c}), c)
    case ShutDown => Monitor(m.q.ShutDown(), {}, m.woken + m.asleep)
  }

  function Steps<T(==)>(): Runs.System<Monitor<T>, Step<T>> {
    Runs.System((m, s) => Enabled(m, s), (m, s) => Apply(m, s))
  }

  function After<T(==)>(ss: seq<Step<T>>): Monitor<T> {
    Runs.After(Steps<T>(), Monitor(Empty(), {}, {}), ss)
  }

  predicate IsRun<T(==)>(ss: seq<Step<T>>) {
    Runs.IsRun(Steps<T>(), Monitor(Empty(), {}, {}), ss)
  }

  /** While somebody sleeps, every listed item has a signalled caller coming
      for it; after ShutDown nobody sleeps. */
  ghost predicate NobodyForgotten<T>(m: Monitor<T>) {
    && m.asleep !! m.woken
    && (m.asleep != {} ==> !m.q.shuttingDown && |m.q.queue| <= |m.woken|)
  }

  lemma TryGetForgetsNobody<T>(m: Monitor<T>, c: Caller)
    requires m.asleep !! m.woken && c !in m.asleep && c !in m.woken
    requires m.asleep != {} ==> !m.q.shuttingDown && |m.q.queue| <= |m.woken| + 1
    ensures NobodyForgotten(TryGet(m, c))
  {
  }

  lemma SignalForgetsNobody<T>(m: Monitor<T>, pick: Caller)
    requires m.asleep !! m.woken && (m.asleep != {} ==> pick in m.asleep)
    requires m.asleep != {} ==> !m.q.shuttingDown && |m.q.queue| <= |m.woken| + 1
    ensures NobodyForgotten(Signal(m, pick))
  {
  }

  lemma StepForgetsNobody<T>(m: Monitor<T>, s: Step<T>)
    requires NobodyForgotten(m) && Enabled(m, s)
    ensures NobodyForgotten(Apply(m, s))
  {
    match s
    case Add(x, pick) => SignalForgetsNobody(m.(q := m.q.Add(x)), pick);
    case Done(x, pick) => SignalForgetsNobody(m.(q := m.q.Done(x)), pick);
    case Enter(c) => TryGetForgetsNobody(m, c);
    case Resume(c) =>
      assert |m.woken - {c}| == |m.woken| - 1;
      TryGetForgetsNobody(m.(woken := m.woken - {c}), c);
    case ShutDown =>
  }

  /** No wake-up is lost, in any interleaving of Add, Get, Done and ShutDown by
      any number of callers. */
  lemma {:induction false} NoLostWakeUp<T>(ss: seq<Step<T>>)
    requires IsRun(ss)
    ensures NobodyForgotten(After(ss))
  {
    if ss != [] {
      NoLostWakeUp(ss[..|ss| - 1]);
      StepForgetsNobody(After(ss[..|ss| - 1]), ss[|ss| - 1]);
    }
  }

  /** Hence no deadlock: if no signalled caller is on its way, then a caller
      that sleeps has nothing to take and the queue is not shutting down. */
  lemma SleepersHaveNothingToDo<T>(ss: seq<Step<T>>)
    requires IsRun(ss) && After(ss).woken == {} && After(ss).asleep != {}
    ensures !After(ss).q.CanGet()
  {
    NoLostWakeUp(ss);
  }
}
