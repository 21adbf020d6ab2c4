/** How the loop of the delaying queue wakes up
    (waitingLoop in `pkg/forked/workqueue/delaying_queue.go`): between its passes
    it sleeps until a timer for the first deadline fires, the heartbeat ticks, or
    an entry arrives, while time and the callers go on.  A pass is what
    DelayingQueues.DelayingQueue.LoopPass does up to its sleep. */
module Wakeups {
  import opened Prelude
  import opened DelayPipeline
  import opened WaitingList
  import Runs

  const MAX_WAIT: int := 10_000_000_000

  /** `timer` is the wait that the last pass computed, and `armed` the time at which
      it was started. */
  datatype Phase =
    | Awake
    | Passed(timer: Option<int>)
    | Asleep(timer: Option<int>, armed: int)
    | Draining
    | Ended

  datatype Loop<T(==)> = Loop(
    pipe: Pipe<T>,
    phase: Phase,
    time: int,   // the clock
    since: int,  // what the clock said at the last pass
    beat: int)   // when the heartbeat channel has or will have a value

  datatype LoopStep<T> =
    | Tick(t: int)                                  // time passes
    | Outside(s: Step<T>)                           // callers and workers go on
    | Pass(steps: seq<Step<T>>, timer: Option<int>) // the loop releases what is due
    | SetTimer                                      // ... and goes to sleep
    | TimerFires
    | Heartbeat(next: int)
    | Take                                          // an entry arrives, or a further one
    | Drained
    | Quit                                          // the loop sees the shutdown

  predicate IsOutside<T>(s: Step<T>) {
    || s.Request? || s.Refuse? || s.Send? || s.Abandon?
    || s.Add? || s.Get? || s.Done? || s.ShutDown? || s.Close?
  }

  /** The steps release what is due at `now`, and nothing else. */
  ghost predicate ReleasesDue<T>(p: Pipe<T>, steps: seq<Step<T>>, now: int) {
    && IsRun(p, steps) && (forall i :: 0 <= i < |steps| ==> steps[i].Release? && steps[i].now == now)
    && After(p, steps).waiting == Later(p.waiting, now)
  }

  ghost predicate CanStep<T>(l: Loop<T>, s: LoopStep<T>) {
    match s
    case Tick(t) => l.time <= t
    case Outside(s) => IsOutside(s) && Enabled(l.pipe, s)
    case Pass(steps, timer) =>
      && l.phase.Awake? && !l.pipe.q.shuttingDown
      && ReleasesDue(l.pipe, steps, l.time) && TimerFor(Later(l.pipe.waiting, l.time), l.time, timer)
    case SetTimer => l.phase.Passed?
    case TimerFires => l.phase.Asleep? && l.phase.timer.Some? && l.phase.armed + l.phase.timer.value <= l.time
    case Heartbeat(next) => l.phase.Asleep? && l.beat <= l.time && next <= l.time + MAX_WAIT
    case Take => (l.phase.Asleep? || l.phase.Draining?) && l.pipe.chan != [] && l.pipe.hand.None?
    case Drained => l.phase.Draining? && l.pipe.chan == []
    case Quit => (l.phase.Awake? && l.pipe.q.shuttingDown) || (l.phase.Asleep? && l.pipe.closed)
  }

  ghost function Next<T>(l: Loop<T>, s: LoopStep<T>): Loop<T> {
    match s
    case Tick(t) => l.(time := t)
    case Outside(s) => l.(pipe := Apply(l.pipe, s))
    case Pass(steps, timer) => l.(pipe := After(l.pipe, steps), phase := Passed(timer), since := l.time)
    case SetTimer => if l.phase.Passed? then l.(phase := Asleep(l.phase.timer, l.time)) else l
    case TimerFires => l.(phase := Awake)
    case Heartbeat(next) => l.(phase := Awake, beat := next)
    case Take => l.(pipe := Apply(Apply(l.pipe, Receive), Treat(l.time)), phase := Draining)
    case Drained => l.(phase := Awake)
    case Quit => l.(pipe := if l.phase.Awake? then Apply(l.pipe, Discard) else l.pipe, phase := Ended)
  }

  ghost function Loops<T>(): Runs.System<Loop<T>, LoopStep<T>> {
    Runs.System((l, s) => CanStep(l, s), (l, s) => Next(l, s))
  }

  /** The heartbeat is set up before the loop begins. */
  predicate Begins<T(==)>(l: Loop<T>) {
    l.pipe == Start() && l.phase == Awake && l.beat <= l.time + MAX_WAIT
  }

  // The invariant

  /** Nothing waits that was due at the last pass, the timer is the one for the
      earliest deadline, and the heartbeat is at most MAX_WAIT away from the last
      pass. */
  ghost predicate Settled<T>(l: Loop<T>, timer: Option<int>) {
    && TimerFor(l.pipe.waiting, l.since, timer)
    && (forall x :: x in l.pipe.waiting ==> l.since < l.pipe.waiting[x])
    && l.beat <= l.since + MAX_WAIT && l.since <= l.time
  }

  ghost predicate Watchful<T>(l: Loop<T>) {
    && l.pipe.hand.None?
    && match l.phase
       case Passed(timer) => Settled(l, timer)
       case Asleep(timer, armed) => Settled(l, timer) && l.since <= armed <= l.time
       case Ended => true
       case _ => l.beat <= l.time + MAX_WAIT
  }

  lemma OutsideKeepsWaiting<T>(p: Pipe<T>, s: Step<T>)
    requires IsOutside(s)
    ensures Apply(p, s).waiting == p.waiting && Apply(p, s).hand == p.hand
  {
    match s
    case Send(c) =>
      match c {
        case Immediate(_) =>
        case Delayed(_) =>
      }
    case _ =>
  }

  lemma {:induction false} ReleasesKeepHand<T>(p: Pipe<T>, steps: seq<Step<T>>)
    requires forall i :: 0 <= i < |steps| ==> steps[i].Release?
    ensures After(p, steps).hand == p.hand && After(p, steps).q.shuttingDown == p.q.shuttingDown
  {
    if steps != [] {
      ReleasesKeepHand(p, steps[..|steps| - 1]);
    }
  }

  lemma StepKeepsWatchful<T>(l: Loop<T>, s: LoopStep<T>)
    requires Watchful(l) && CanStep(l, s)
    ensures Watchful(Next(l, s))
  {
    match s
    case Outside(s) => OutsideKeepsWaiting(l.pipe, s);
    case Pass(steps, timer) => ReleasesKeepHand(l.pipe, steps);
    case _ =>
  }

  lemma {:induction false} AlwaysWatchful<T>(l0: Loop<T>, ss: seq<LoopStep<T>>)
    requires Begins(l0) && Runs.IsRun(Loops<T>(), l0, ss)
    ensures Watchful(Runs.After(Loops<T>(), l0, ss))
  {
    if ss != [] {
      AlwaysWatchful(l0, ss[..|ss| - 1]);
      StepKeepsWatchful(Runs.After(Loops<T>(), l0, ss[..|ss| - 1]), ss[|ss| - 1]);
    }
  }

  // Never oversleeping

  /** In every run: whenever the loop sleeps, the timer fires no later than any
      deadline that is waiting, but for the time that passed between reading the
      clock and starting the timer; and even without a timer the heartbeat ticks
      before anything has been expired for MAX_WAIT. */
  lemma NeverOversleeps<T>(l0: Loop<T>, ss: seq<LoopStep<T>>, x: T)
    requires Begins(l0) && Runs.IsRun(Loops<T>(), l0, ss)
    requires var l := Runs.After(Loops<T>(), l0, ss); l.phase.Asleep? && x in l.pipe.waiting
    ensures var l := Runs.After(Loops<T>(), l0, ss);
            && l.phase.timer.Some?
            && l.phase.armed + l.phase.timer.value <= l.pipe.waiting[x] + (l.phase.armed - l.since)
            && l.beat < l.pipe.waiting[x] + MAX_WAIT
            && (l.pipe.waiting[x] + (l.phase.armed - l.since) <= l.time ==> CanStep(l, TimerFires))
            && (l.pipe.waiting[x] + MAX_WAIT <= l.time ==> CanStep(l, Heartbeat(l.time)))
  {
    AlwaysWatchful(l0, ss);
  }

  // What waits can be released

  /** The steps are the loop's own, or time passing. */
  predicate OnItsOwn<T>(ss: seq<LoopStep<T>>) {
    forall i :: 0 <= i < |ss| ==> !ss[i].Outside?
  }

  /** From l, the loop gets by itself to where x waits no longer, but in the inner
      queue. */
  ghost predicate GetsReleased<T>(l: Loop<T>, ss: seq<LoopStep<T>>, x: T) {
    && OnItsOwn(ss) && Runs.IsRun(Loops<T>(), l, ss)
    && var p := Runs.After(Loops<T>(), l, ss).pipe; x !in p.waiting && x in p.q.dirty
  }

  lemma StepBefore<T>(l: Loop<T>, s: LoopStep<T>, ss: seq<LoopStep<T>>, x: T)
    requires CanStep(l, s) && !s.Outside? && GetsReleased(Next(l, s), ss, x)
    ensures GetsReleased(l, [s] + ss, x)
  {
    Runs.Prepend(Loops<T>(), l, s, ss);
  }

  /** Whatever is due can be released, one by one. */
  lemma {:induction false} DueCanGo<T>(p: Pipe<T>, due: set<T>, now: int) returns (steps: seq<Step<T>>)
    requires due <= p.waiting.Keys && !p.q.shuttingDown && forall x :: x in due ==> p.waiting[x] <= now
    ensures IsRun(p, steps) && (forall i :: 0 <= i < |steps| ==> steps[i].Release? && steps[i].now == now)
    ensures After(p, steps).waiting == p.waiting - due && p.q.dirty + due <= After(p, steps).q.dirty
    decreases due
  {
    if due == {} {
      steps := [];
    } else {
      var x :| x in due;
      var p' := Apply(p, Release(x, now));
      var rest := DueCanGo(p', due - {x}, now);
      steps := [Release(x, now)] + rest;
      Runs.Prepend(Steps<T>(), p, Release(x, now), rest);
      assert p.waiting - {x} - (due - {x}) == p.waiting - due;
    }
  }

  lemma EarliestExists<T>(w: map<T, int>, now: int) returns (timer: Option<int>)
    ensures TimerFor(w, now, timer)
  {
    if w == map[] {
      timer := None;
    } else {
      var x := Earliest(w, w.Keys);
      timer := Some(w[x] - now);
    }
  }

  lemma {:induction false} Earliest<T>(w: map<T, int>, keys: set<T>) returns (x: T)
    requires keys != {} && keys <= w.Keys
    ensures x in keys && forall y :: y in keys ==> w[x] <= w[y]
  {
    x :| x in keys;
    if keys != {x} {
      var y := Earliest(w, keys - {x});
      if w[y] < w[x] {
        x := y;
      }
    }
  }

  lemma PassReleases<T>(l: Loop<T>, x: T) returns (ss: seq<LoopStep<T>>)
    requires l.phase.Awake? && !l.pipe.q.shuttingDown && x in l.pipe.waiting && l.pipe.waiting[x] <= l.time
    ensures GetsReleased(l, ss, x)
  {
    var due := set y | y in l.pipe.waiting && l.pipe.waiting[y] <= l.time;
    var steps := DueCanGo(l.pipe, due, l.time);
    assert l.pipe.waiting - due == Later(l.pipe.waiting, l.time);
    var timer := EarliestExists(Later(l.pipe.waiting, l.time), l.time);
    StepBefore(l, Pass(steps, timer), [], x);
    ss := [Pass(steps, timer)] + [];
  }

  /** The entries that have arrived are treated, and then comes a pass. */
  lemma {:induction false} DrainReleases<T>(l: Loop<T>, x: T) returns (ss: seq<LoopStep<T>>)
    requires l.phase.Draining? && l.pipe.hand.None? && !l.pipe.q.shuttingDown
    requires x in l.pipe.waiting && l.pipe.waiting[x] <= l.time
    ensures GetsReleased(l, ss, x)
    decreases |l.pipe.chan|
  {
    if l.pipe.chan == [] {
      var rest := PassReleases(Next(l, Drained), x);
      StepBefore(l, Drained, rest, x);
      ss := [Drained] + rest;
    } else {
      var rest := DrainReleases(Next(l, Take), x);
      StepBefore(l, Take, rest, x);
      ss := [Take] + rest;
    }
  }

  /** From every state of every run before ShutDown, the loop gets by itself, as
      time passes, to where a waiting item is in the inner queue. */
  lemma WaitingGetsReleased<T>(l0: Loop<T>, ss: seq<LoopStep<T>>, x: T) returns (more: seq<LoopStep<T>>)
    requires Begins(l0) && Runs.IsRun(Loops<T>(), l0, ss)
    requires var l := Runs.After(Loops<T>(), l0, ss);
             !l.pipe.q.shuttingDown && !l.phase.Ended? && x in l.pipe.waiting
    ensures GetsReleased(Runs.After(Loops<T>(), l0, ss), more, x)
  {
    var l := Runs.After(Loops<T>(), l0, ss);
    AlwaysWatchful(l0, ss);
    var t := Max(l.time, l.pipe.waiting[x] + MAX_WAIT);
    StepKeepsWatchful(l, Tick(t));
    var rest := LateGetsReleased(Next(l, Tick(t)), x);
    StepBefore(l, Tick(t), rest, x);
    more := [Tick(t)] + rest;
  }

  lemma LateGetsReleased<T>(l: Loop<T>, x: T) returns (ss: seq<LoopStep<T>>)
    requires Watchful(l) && !l.pipe.q.shuttingDown && !l.phase.Ended?
    requires x in l.pipe.waiting && l.pipe.waiting[x] + MAX_WAIT <= l.time
    ensures GetsReleased(l, ss, x)
  {
    match l.phase
    case Awake => ss := PassReleases(l, x);
    case Draining => ss := DrainReleases(l, x);
    case Asleep(_, _) => ss := SleeperReleases(l, x);
    case Passed(_) =>
      var rest := SleeperReleases(Next(l, SetTimer), x);
      StepBefore(l, SetTimer, rest, x);
      ss := [SetTimer] + rest;
  }

  lemma SleeperReleases<T>(l: Loop<T>, x: T) returns (ss: seq<LoopStep<T>>)
    requires Watchful(l) && !l.pipe.q.shuttingDown && l.phase.Asleep?
    requires x in l.pipe.waiting && l.pipe.waiting[x] + MAX_WAIT <= l.time
    ensures GetsReleased(l, ss, x)
  {
    var rest := PassReleases(Next(l, Heartbeat(l.time)), x);
    StepBefore(l, Heartbeat(l.time), rest, x);
    ss := [Heartbeat(l.time)] + rest;
  }

  // Shutting down

  lemma ReleasesKeepClosed<T>(p: Pipe<T>, steps: seq<Step<T>>)
    requires forall i :: 0 <= i < |steps| ==> steps[i].Release?
    ensures After(p, steps).closed == p.closed
    decreases |steps|
  {
    if steps != [] {
      ReleasesKeepClosed(p, steps[..|steps| - 1]);
    }
  }

  lemma StepKeepsClosed<T>(l: Loop<T>, s: LoopStep<T>)
    requires CanStep(l, s) && (l.pipe.closed ==> l.pipe.q.shuttingDown)
    ensures var l' := Next(l, s);
            && (l.pipe.closed || s == Outside(Close) ==> l'.pipe.closed)
            && (l'.pipe.closed ==> l'.pipe.q.shuttingDown)
  {
    match s
    case Outside(s) => StepKeepsOpen(l.pipe, s);
    case Pass(steps, _) =>
      ReleasesKeepClosed(l.pipe, steps);
      ReleasesKeepHand(l.pipe, steps);
    case _ =>
  }

  /** The stop channel stays closed, and is closed only after ShutDown. */
  lemma {:induction false} CloseLasts<T>(l0: Loop<T>, ss: seq<LoopStep<T>>)
    requires Begins(l0) && Runs.IsRun(Loops<T>(), l0, ss)
    ensures var l := Runs.After(Loops<T>(), l0, ss);
            (Outside(Close) in ss ==> l.pipe.closed) && (l.pipe.closed ==> l.pipe.q.shuttingDown)
  {
    if ss != [] {
      CloseLasts(l0, ss[..|ss| - 1]);
      StepKeepsClosed(Runs.After(Loops<T>(), l0, ss[..|ss| - 1]), ss[|ss| - 1]);
    }
  }

  /** From l, the loop ends by itself. */
  ghost predicate GetsEnded<T>(l: Loop<T>, ss: seq<LoopStep<T>>) {
    OnItsOwn(ss) && Runs.IsRun(Loops<T>(), l, ss) && Runs.After(Loops<T>(), l, ss).phase.Ended?
  }

  lemma StepBeforeEnd<T>(l: Loop<T>, s: LoopStep<T>, ss: seq<LoopStep<T>>)
    requires CanStep(l, s) && !s.Outside? && GetsEnded(Next(l, s), ss)
    ensures GetsEnded(l, [s] + ss)
  {
    Runs.Prepend(Loops<T>(), l, s, ss);
  }

  lemma {:induction false} EndsFrom<T>(l: Loop<T>) returns (ss: seq<LoopStep<T>>)
    requires l.pipe.hand.None? && l.pipe.closed && l.pipe.q.shuttingDown
    ensures GetsEnded(l, ss)
    decreases |l.pipe.chan|, match l.phase case Ended => 0 case Asleep(_, _) => 1 case Awake => 1 case _ => 2
  {
    if l.phase.Ended? {
      ss := [];
    } else {
      var s := match l.phase
        case Passed(_) => SetTimer
        case Draining => if l.pipe.chan == [] then Drained else Take
        case _ => Quit;
      var rest := EndsFrom(Next(l, s));
      StepBeforeEnd(l, s, rest);
      ss := [s] + rest;
    }
  }

  /** After ShutDown and the closing of the stop channel, in every run: the loop
      comes to its end by itself, and every caller that is blocked on a full
      channel can leave. */
  lemma EndsAfterClose<T>(l0: Loop<T>, ss: seq<LoopStep<T>>) returns (more: seq<LoopStep<T>>)
    requires Begins(l0) && Runs.IsRun(Loops<T>(), l0, ss) && Outside(Close) in ss
    ensures var l := Runs.After(Loops<T>(), l0, ss);
            && GetsEnded(l, more)
            && forall c :: c in l.pipe.inFlight && c.Delayed? ==> CanStep(l, Outside(Abandon(c)))
  {
    CloseLasts(l0, ss);
    KeepsHandFree(l0, ss);
    more := EndsFrom(Runs.After(Loops<T>(), l0, ss));
  }

  lemma KeepsHandFree<T>(l0: Loop<T>, ss: seq<LoopStep<T>>)
    requires Begins(l0) && Runs.IsRun(Loops<T>(), l0, ss)
    ensures Runs.After(Loops<T>(), l0, ss).pipe.hand.None?
  {
    AlwaysWatchful(l0, ss);
  }
}
