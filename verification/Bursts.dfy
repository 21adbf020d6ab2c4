/** A rate-limited queue in front of its delaying queue
    (`pkg/forked/workqueue/rate_limiting_queue.go` with the default limiter of
    `default_rate_limiter.go`): bursts of calls of Dirty
    (`pkg/util/dirty_reconciler.go`). */
module Bursts {
  import opened Prelude
  import opened DelayPipeline
  import opened RateLimiters
  import Runs

  /** The pipeline, and the exponential limiter in front of it. */
  datatype Front<T(==)> = Front(pipe: Pipe<T>, limiter: Limiter<T>)

  /** `take` is what the token bucket says. */
  datatype FrontStep<T> =
    | AddRateLimited(x: T, take: nat, now: int)
    | Forget(x: T)
    | Inside(s: DelayPipeline.Step<T>)  // anything but AddAfter

  /** The answer of the default limiter: the longer of the two delays. */
  function DelayFor<T>(f: Front<T>, x: T, take: nat): int {
    Max(f.limiter.Delay(x, take), take)
  }

  predicate FrontEnabled<T(==)>(f: Front<T>, s: FrontStep<T>) {
    s.Inside? ==> !s.s.Request? && !s.s.Refuse? && Enabled(f.pipe, s.s)
  }

  function FrontApply<T(==)>(f: Front<T>, s: FrontStep<T>): Front<T> {
    match s
    case AddRateLimited(x, take, now) =>
      var call := CallFor(x, DelayFor(f, x, take), now);
      Front(if f.pipe.q.shuttingDown then f.pipe else Apply(f.pipe, Request(call)), f.limiter.Asked(x))
    case Forget(x) => f.(limiter := f.limiter.Forgotten(x))
    case Inside(s) => f.(pipe := Apply(f.pipe, s))
  }

  function FrontSteps<T(==)>(): Runs.System<Front<T>, FrontStep<T>> {
    Runs.System((f, s) => FrontEnabled(f, s), (f, s) => FrontApply(f, s))
  }

  function FrontStart<T(==)>(baseDelay: int, maxDelay: int): Front<T> {
    Front(Start(), Limiter(Exponential(baseDelay, maxDelay), map[]))
  }

  predicate IsFrontRun<T(==)>(baseDelay: int, maxDelay: int, ss: seq<FrontStep<T>>) {
    Runs.IsRun(FrontSteps<T>(), FrontStart(baseDelay, maxDelay), ss)
  }

  function FrontAfter<T(==)>(baseDelay: int, maxDelay: int, ss: seq<FrontStep<T>>): Front<T> {
    Runs.After(FrontSteps<T>(), FrontStart(baseDelay, maxDelay), ss)
  }

  lemma LastFrontStep<T>(baseDelay: int, maxDelay: int, ss: seq<FrontStep<T>>)
    requires ss != []
    ensures var init, s := ss[..|ss| - 1], ss[|ss| - 1];
            && FrontAfter(baseDelay, maxDelay, ss) == FrontApply(FrontAfter(baseDelay, maxDelay, init), s)
            && (IsFrontRun(baseDelay, maxDelay, ss) <==>
                IsFrontRun(baseDelay, maxDelay, init) && FrontEnabled(FrontAfter(baseDelay, maxDelay, init), s))
  {
  }

  // What the limiter is asked

  /** The calls of the limiter in a run. */
  function Asks<T>(ss: seq<FrontStep<T>>): seq<RateLimiters.Event<T>> {
    if ss == [] then []
    else
      Asks(ss[..|ss| - 1]) +
      match ss[|ss| - 1]
      case AddRateLimited(x, _, _) => [RateLimiters.When(x)]
      case Forget(x) => [RateLimiters.Forget(x)]
      case Inside(_) => []
  }

  lemma {:induction false} LimiterFollowsAsks<T>(baseDelay: int, maxDelay: int, ss: seq<FrontStep<T>>)
    ensures FrontAfter(baseDelay, maxDelay, ss).limiter == AfterEvents(Exponential(baseDelay, maxDelay), Asks(ss))
  {
    if ss != [] {
      var init := ss[..|ss| - 1];
      LimiterFollowsAsks(baseDelay, maxDelay, init);
      LastFrontStep(baseDelay, maxDelay, ss);
      if ss[|ss| - 1].Inside? {
        assert Asks(ss) == Asks(init);
      } else {
        assert Asks(ss)[..|Asks(ss)| - 1] == Asks(init);
      }
    }
  }

  // The first of a burst

  /** No entry of x on the way or waiting is due before d. */
  predicate NoneBefore<T(==)>(p: Pipe<T>, x: T, d: int) {
    && (forall c :: c in p.inFlight && c.Delayed? && c.entry.data == x ==> d <= c.entry.readyAt)
    && (forall e :: e in p.chan && e.data == x ==> d <= e.readyAt)
    && (p.hand.Some? && p.hand.value.data == x ==> d <= p.hand.value.readyAt)
    && (x in p.waiting ==> d <= p.waiting[x])
  }

  /** A call of AddRateLimited at a time, and with a token at a time, no earlier
      than the first. */
  predicate NotEarlier<T(==)>(first: FrontStep<T>, s: FrontStep<T>)
    requires first.AddRateLimited?
  {
    s.AddRateLimited? && s.x == first.x ==> first.now <= s.now && first.now + first.take <= s.now + s.take
  }

  /** Step k hands x to the inner queue. */
  predicate FrontAddsAt<T(==)>(baseDelay: int, maxDelay: int, ss: seq<FrontStep<T>>, k: nat, x: T)
    requires k < |ss|
  {
    ss[k].Inside? && AddsToInner(FrontAfter(baseDelay, maxDelay, ss[..k]).pipe, ss[k].s, x)
  }

  ghost predicate IsBurst<T(!new)>(baseDelay: int, maxDelay: int, ss: seq<FrontStep<T>>, n: nat)
    requires n < |ss| && ss[n].AddRateLimited?
  {
    && (forall k :: n < k < |ss| ==> ss[k] != FrontStep.Forget(ss[n].x) && NotEarlier(ss[n], ss[k]))
    && (forall k :: n < k < |ss| ==> !FrontAddsAt(baseDelay, maxDelay, ss, k, ss[n].x))
  }

  /** The limiter that was asked `failures` times answers no shorter delays. */
  ghost predicate Holds<T>(baseDelay: int, maxDelay: int, f: Front<T>, x: T, failures: nat, d: int) {
    && f.limiter.kind == Exponential(baseDelay, maxDelay) && failures <= f.limiter.NumRequeues(x)
    && WaitsBy(f.pipe, x, d) && NoneBefore(f.pipe, x, d)
  }

  predicate GoodDelays(baseDelay: int, maxDelay: int) {
    0 < baseDelay < TWO_TO_THE_53 && 0 < maxDelay < TWO_TO_THE_63
  }

  ghost function Deadline<T>(baseDelay: int, maxDelay: int, first: FrontStep<T>, failures: nat): int
    requires first.AddRateLimited?
  {
    first.now + Max(ExponentialDelay(baseDelay, maxDelay, failures), first.take)
  }

  lemma FirstHolds<T>(baseDelay: int, maxDelay: int, f: Front<T>, s: FrontStep<T>)
    requires GoodDelays(baseDelay, maxDelay) && !IsPowerOfTwo(baseDelay)
    requires f.limiter.kind == Exponential(baseDelay, maxDelay)
    requires s.AddRateLimited? && !f.pipe.q.shuttingDown && WaitsNowhere(f.pipe, s.x)
    ensures var failures := f.limiter.NumRequeues(s.x);
            Holds(baseDelay, maxDelay, FrontApply(f, s), s.x, failures, Deadline(baseDelay, maxDelay, s, failures))
  {
    var failures := f.limiter.NumRequeues(s.x);
    var d := Deadline(baseDelay, maxDelay, s, failures);
    DelayMonotone(baseDelay, maxDelay, failures, failures);
    assert Delayed(WaitFor(s.x, d)) in FrontApply(f, s).pipe.inFlight;
  }

  lemma StepHolds<T>(baseDelay: int, maxDelay: int, f: Front<T>, first: FrontStep<T>, s: FrontStep<T>, failures: nat)
    requires GoodDelays(baseDelay, maxDelay) && !IsPowerOfTwo(baseDelay) && first.AddRateLimited?
    requires var x, d := first.x, Deadline(baseDelay, maxDelay, first, failures);
             && Holds(baseDelay, maxDelay, f, x, failures, d)
             && FrontEnabled(f, s) && !f.pipe.closed && !FrontApply(f, s).pipe.q.shuttingDown
             && s != FrontStep.Forget(x) && NotEarlier(first, s) && (s.Inside? ==> !AddsToInner(f.pipe, s.s, x))
    ensures var d := Deadline(baseDelay, maxDelay, first, failures);
            Holds(baseDelay, maxDelay, FrontApply(f, s), first.x, failures, d)
  {
    var x, d := first.x, Deadline(baseDelay, maxDelay, first, failures);
    match s
    case AddRateLimited(y, take, now) =>
      StepKeepsWaiting(f.pipe, Request(CallFor(y, DelayFor(f, y, take), now)), x, d);
      DelayMonotone(baseDelay, maxDelay, failures, f.limiter.NumRequeues(x));
    case Forget(_) =>
    case Inside(q) =>
      StepKeepsWaiting(f.pipe, q, x, d);
      InsideKeepsNoneBefore(f.pipe, q, x, d);
  }

  lemma InsideKeepsNoneBefore<T>(p: Pipe<T>, s: DelayPipeline.Step<T>, x: T, d: int)
    requires NoneBefore(p, x, d) && Enabled(p, s) && !s.Request?
    ensures NoneBefore(Apply(p, s), x, d)
  {
  }

  lemma {:induction false} OpenFront<T>(baseDelay: int, maxDelay: int, ss: seq<FrontStep<T>>)
    requires IsFrontRun(baseDelay, maxDelay, ss)
    ensures var f := FrontAfter(baseDelay, maxDelay, ss);
            && f.limiter.kind == Exponential(baseDelay, maxDelay) && (f.pipe.closed ==> f.pipe.q.shuttingDown)
            && (ss != [] && !f.pipe.q.shuttingDown ==>
                  !FrontAfter(baseDelay, maxDelay, ss[..|ss| - 1]).pipe.q.shuttingDown)
  {
    if ss != [] {
      LastFrontStep(baseDelay, maxDelay, ss);
      OpenFront(baseDelay, maxDelay, ss[..|ss| - 1]);
      FrontStepKeepsOpen(FrontAfter(baseDelay, maxDelay, ss[..|ss| - 1]), ss[|ss| - 1]);
    }
  }

  lemma FrontStepKeepsOpen<T>(f: Front<T>, s: FrontStep<T>)
    requires FrontEnabled(f, s) && (f.pipe.closed ==> f.pipe.q.shuttingDown)
    ensures var f' := FrontApply(f, s);
            && f'.limiter.kind == f.limiter.kind && (f'.pipe.closed ==> f'.pipe.q.shuttingDown)
            && (f.pipe.q.shuttingDown ==> f'.pipe.q.shuttingDown)
  {
    if s.Inside? {
      StepKeepsOpen(f.pipe, s.s);
    }
  }

  lemma BurstSoFar<T(!new)>(baseDelay: int, maxDelay: int, ss: seq<FrontStep<T>>, n: nat)
    requires n < |ss| - 1 && ss[n].AddRateLimited? && IsBurst(baseDelay, maxDelay, ss, n)
    ensures var l, x := |ss| - 1, ss[n].x;
            && IsBurst(baseDelay, maxDelay, ss[..l], n)
            && !FrontAddsAt(baseDelay, maxDelay, ss, l, x) && ss[l] != FrontStep.Forget(x) && NotEarlier(ss[n], ss[l])
  {
    var l := |ss| - 1;
    forall k | n < k < l
      ensures !FrontAddsAt(baseDelay, maxDelay, ss[..l], k, ss[n].x)
    {
      assert ss[..l][..k] == ss[..k];
      assert !FrontAddsAt(baseDelay, maxDelay, ss, k, ss[n].x);
    }
  }

  lemma {:induction false} BurstHolds<T(!new)>(baseDelay: int, maxDelay: int, ss: seq<FrontStep<T>>, n: nat)
    requires GoodDelays(baseDelay, maxDelay) && !IsPowerOfTwo(baseDelay)
    requires IsFrontRun(baseDelay, maxDelay, ss)
    requires n < |ss| && ss[n].AddRateLimited? && IsBurst(baseDelay, maxDelay, ss, n)
    requires !FrontAfter(baseDelay, maxDelay, ss).pipe.q.shuttingDown
    requires WaitsNowhere(FrontAfter(baseDelay, maxDelay, ss[..n]).pipe, ss[n].x)
    ensures var failures := FrontAfter(baseDelay, maxDelay, ss[..n]).limiter.NumRequeues(ss[n].x);
            var d := Deadline(baseDelay, maxDelay, ss[n], failures);
            Holds(baseDelay, maxDelay, FrontAfter(baseDelay, maxDelay, ss), ss[n].x, failures, d)
    decreases |ss|
  {
    var l := |ss| - 1;
    var f := FrontAfter(baseDelay, maxDelay, ss[..l]);
    LastFrontStep(baseDelay, maxDelay, ss);
    OpenFront(baseDelay, maxDelay, ss);
    OpenFront(baseDelay, maxDelay, ss[..l]);
    if n == l {
      FirstHolds(baseDelay, maxDelay, f, ss[n]);
    } else {
      assert ss[..l][..n] == ss[..n];
      BurstSoFar(baseDelay, maxDelay, ss, n);
      BurstHolds(baseDelay, maxDelay, ss[..l], n);
      var failures := FrontAfter(baseDelay, maxDelay, ss[..n]).limiter.NumRequeues(ss[n].x);
      StepHolds(baseDelay, maxDelay, f, ss[n], ss[l], failures);
    }
  }

  /** A burst of calls of Dirty, under the default limiter and on a clock that
      does not go back, whatever else the queue does meanwhile: as long as none
      of them has led to an addition, the item is pending with the deadline of
      the first call, which is the back-off for the calls since the last Forget,
      or the bucket's if that is longer.  Later calls do not postpone it, and do
      not bring it forward. */
  lemma BurstKeepsFirst<T(!new)>(baseDelay: int, maxDelay: int, ss: seq<FrontStep<T>>, n: nat, since: nat)
    requires GoodDelays(baseDelay, maxDelay) && !IsPowerOfTwo(baseDelay)
    requires IsFrontRun(baseDelay, maxDelay, ss)
    requires n < |ss| && ss[n].AddRateLimited? && IsBurst(baseDelay, maxDelay, ss, n)
    requires !FrontAfter(baseDelay, maxDelay, ss).pipe.q.shuttingDown
    requires WaitsNowhere(FrontAfter(baseDelay, maxDelay, ss[..n]).pipe, ss[n].x)
    requires var es := Asks(ss[..n]);
             && since <= |es| && RateLimiters.Forget(ss[n].x) !in es[since..]
             && (since > 0 ==> es[since - 1] == RateLimiters.Forget(ss[n].x))
    ensures var p, x := FrontAfter(baseDelay, maxDelay, ss).pipe, ss[n].x;
            var d := Deadline(baseDelay, maxDelay, ss[n], multiset(Asks(ss[..n])[since..])[RateLimiters.When(x)]);
            && WaitsBy(p, x, d) && NoneBefore(p, x, d)
            && (!Underway(p, x) ==> x in p.waiting && p.waiting[x] == d)
  {
    BurstHolds(baseDelay, maxDelay, ss, n);
    LimiterFollowsAsks(baseDelay, maxDelay, ss[..n]);
    RequeuesCountWhens(Exponential(baseDelay, maxDelay), Asks(ss[..n]), since, ss[n].x);
  }
}
