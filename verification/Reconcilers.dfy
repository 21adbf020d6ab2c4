/** The rate-limited queue (`pkg/forked/workqueue/rate_limiting_queue.go`) and
    the worker on top of it (`pkg/util/reconciler.go`,
    `pkg/util/dirty_reconciler.go`). */
module Reconcilers {
  import opened Prelude
  import opened WorkQueues
  import opened DelayPipeline
  import opened DelayingQueues
  import opened RateLimiters
  import Bursts

  class RateLimitingQueue<T(==, 0)> {
    const queue: DelayingQueue<T>
    const limiter: MaxOfRateLimiter<T>

    ghost predicate Valid()
      reads this, queue, queue.slice, queue.inner, queue.Repr()
    {
      && queue.Valid()
      && limiter.Valid()
      && (set l | l in limiter.limiters) !! queue.Repr()
    }

    constructor (queue: DelayingQueue<T>, limiter: MaxOfRateLimiter<T>)
      requires queue.Valid() && limiter.Valid() && (set l | l in limiter.limiters) !! queue.Repr()
      ensures Valid() && this.queue == queue && this.limiter == limiter
    {
      this.queue := queue;
      this.limiter := limiter;
    }

    /** The room that a send needs unless the queue is shutting down. */
    predicate HasRoom()
      reads queue, queue.inner
    {
      queue.inner.shuttingDown || |queue.chan| < CHANNEL_CAPACITY
    }

    /** What the limiters would answer. */
    ghost function Answers(x: T, takes: seq<nat>): seq<int>
      requires |takes| == |limiter.limiters|
      reads limiter.limiters
    {
      limiter.Answers(x, takes)
    }

    /** The queue has the default limiter: the longer of an exponential back-off
        for each item and a token bucket for all. */
    ghost predicate HasDefaultLimiter()
      reads limiter.limiters
    {
      var ls := limiter.limiters;
      |ls| == 2 && ls[0].state.kind == Exponential(5 * MILLISECOND, 1000 * SECOND) && ls[1].state.kind.Bucket?
    }

    /** Then its answer is the back-off for the calls since the last Forget, or
        what the bucket says if that is longer. */
    ghost function DefaultDelay(x: T, takes: seq<nat>): int
      requires HasDefaultLimiter() && |takes| == 2
      reads limiter.limiters
    {
      Max(ExponentialDelay(5 * MILLISECOND, 1000 * SECOND, limiter.limiters[0].state.NumRequeues(x)), takes[1])
    }

    /** The item is requested after the longest of the limiters' answers, and
        every limiter has counted it once. */
    method AddRateLimited(x: T, takes: seq<nat>, now: int) returns (ghost delay: int)
      requires Valid() && HasRoom() && |takes| == |limiter.limiters|
      modifies queue.Repr(), limiter.limiters
      ensures Valid() && queue.slice.buf == old(queue.slice.buf)
      ensures IsLeastUpperBound(delay, old(Answers(x, takes)))
      ensures old(HasDefaultLimiter()) ==> delay == old(DefaultDelay(x, takes)) > 0
      ensures forall i :: 0 <= i < |limiter.limiters| ==>
                limiter.limiters[i].state == old(limiter.limiters[i].state).Asked(x)
      ensures old(queue.inner.shuttingDown) ==> queue.View() == old(queue.View())
      ensures !old(queue.inner.shuttingDown) ==>
                && Did(old(queue.View()), [Request(CallFor(x, delay, now)), Send(CallFor(x, delay, now))], queue.View())
                && queue.View() == Accepted(old(queue.View()), x, delay, now)
    {
      var d := Ask(x, takes);
      delay := d;
      queue.AddAfter(x, d, now);
    }

    method Ask(x: T, takes: seq<nat>) returns (d: int)
      requires limiter.Valid() && |takes| == |limiter.limiters|
      modifies limiter.limiters
      ensures IsLeastUpperBound(d, old(Answers(x, takes)))
      ensures old(HasDefaultLimiter()) ==> d == old(DefaultDelay(x, takes)) > 0
      ensures forall i :: 0 <= i < |limiter.limiters| ==>
                limiter.limiters[i].state == old(limiter.limiters[i].state).Asked(x)
    {
      ghost var answers := Answers(x, takes);
      d := limiter.When(x, takes);
      if old(HasDefaultLimiter()) {
        DefaultDelayIsAnswer(old(limiter.limiters[0].state), x, takes, answers, d);
      }
    }
  }

  /** p after the requeueing of x, if there is one. */
  function Requeued<T(==)>(p: Pipe<T>, x: T, delay: Option<int>, now: int): Pipe<T> {
    if delay.None? then p else Accepted(p, x, delay.value, now)
  }

  /** The steps of one turn of the worker on item x: fetched, requeued if its
      reconcile failed before ShutDown, done. */
  function Turn<T>(x: T, requeue: Option<Call<T>>): seq<Step<T>> {
    [Step.Get(x)] + Requeueing(requeue) + [Step.Done(x)]
  }

  function Requeueing<T>(requeue: Option<Call<T>>): seq<Step<T>> {
    if requeue.None? then [] else [Request(requeue.value), Send(requeue.value)]
  }

  /** With the default limiter, the answer is the back-off for the calls since the
      last Forget, or what the bucket says if that is longer. */
  lemma DefaultDelayIsAnswer<T>(l: Limiter<T>, x: T, takes: seq<nat>, answers: seq<int>, delay: int)
    requires l.kind == Exponential(5 * MILLISECOND, 1000 * SECOND) && |takes| == 2
    requires answers == [l.Delay(x, takes[0]), takes[1]] && IsLeastUpperBound(delay, answers)
    ensures delay == Max(ExponentialDelay(5 * MILLISECOND, 1000 * SECOND, l.NumRequeues(x)), takes[1]) > 0
  {
    FiveMillisecondsIsNoPowerOfTwo();
    DelayMonotone(5 * MILLISECOND, 1000 * SECOND, l.NumRequeues(x), l.NumRequeues(x));
    assert answers[0] <= delay && answers[1] <= delay;
  }

  /** Asking counts one more, and forgetting leaves none; other items' numbers
      stay. */
  lemma AskingCounts<T>(l: Limiter<T>, x: T)
    ensures !l.kind.Bucket? ==> l.Asked(x).NumRequeues(x) == l.NumRequeues(x) + 1 && l.Forgotten(x).NumRequeues(x) == 0
    ensures l.Asked(x).kind == l.Forgotten(x).kind == l.kind
    ensures l.Asked(x).failures - {x} == l.Forgotten(x).failures - {x} == l.failures - {x}
  {
  }

  /** What a turn on the first item of the list does: the item is in nobody's
      hands afterwards, and is gone from the dirty set; if it is requeued with a
      delay, it is in the channel with its deadline, and if without, it is dirty
      again. */
  ghost predicate TurnedTo<T>(p: Pipe<T>, delay: Option<int>, now: int, p': Pipe<T>)
    requires p.q.queue != []
  {
    var x := p.q.queue[0];
    && x !in p'.q.processing && p'.q.processing == p.q.processing && p'.q.shuttingDown == p.q.shuttingDown
    && p'.waiting == p.waiting
    && p'.chan == p.chan + (if delay.Some? && delay.value > 0 then [WaitFor(x, now + delay.value)] else [])
    && p'.q.dirty == (if delay.Some? && delay.value <= 0 then p.q.dirty else p.q.dirty - {x})
  }

  function AfterTurn<T(==)>(p: Pipe<T>, delay: Option<int>, now: int): Pipe<T>
    requires p.q.queue != []
  {
    var x := p.q.queue[0];
    var p1 := Requeued(p.(q := p.q.Get()), x, delay, now);
    p1.(q := p1.q.Done(x))
  }

  lemma TurnMeans<T>(p: Pipe<T>, delay: Option<int>, now: int)
    requires p.q.Valid() && p.q.queue != [] && (delay.Some? ==> !p.q.shuttingDown)
    ensures TurnedTo(p, delay, now, AfterTurn(p, delay, now))
  {
    GetKeepsValid(p.q);
    assert p.q.Get().processing - {p.q.queue[0]} == p.q.processing;
  }

  function RequeueOf<T>(x: T, delay: Option<int>, now: int): Option<Call<T>> {
    if delay.Some? then Some(CallFor(x, delay.value, now)) else None
  }

  lemma RequeueRuns<T>(p: Pipe<T>, x: T, delay: Option<int>, now: int)
    requires delay.Some? ==> !p.q.shuttingDown && |p.chan| < CHANNEL_CAPACITY
    ensures Did(p, Requeueing(RequeueOf(x, delay, now)), Requeued(p, x, delay, now))
  {
    if delay.Some? {
      RequestThenSend(p, CallFor(x, delay.value, now));
    }
  }

  lemma TurnRuns<T>(p: Pipe<T>, delay: Option<int>, now: int)
    requires p.q.queue != [] && (delay.Some? ==> !p.q.shuttingDown && |p.chan| < CHANNEL_CAPACITY)
    ensures var x := p.q.queue[0];
            Did(p, Turn(x, RequeueOf(x, delay, now)), AfterTurn(p, delay, now))
  {
    var x := p.q.queue[0];
    var p1 := p.(q := p.q.Get());
    var p2 := Requeued(p1, x, delay, now);
    Fetched(p);
    RequeueRuns(p1, x, delay, now);
    DoneIt(p2, x);
    DidBoth(p, [Step.Get(x)], p1, Requeueing(RequeueOf(x, delay, now)), p2);
    DidBoth(p, [Step.Get(x)] + Requeueing(RequeueOf(x, delay, now)), p2, [Step.Done(x)], AfterTurn(p, delay, now));
  }

  /** A turn is a run of the pipeline, and does what it should. */
  ghost predicate TookTurn<T>(p: Pipe<T>, x: T, delay: Option<int>, now: int, p': Pipe<T>) {
    p.q.queue != [] && Did(p, Turn(x, RequeueOf(x, delay, now)), p') && TurnedTo(p, delay, now, p')
  }

  lemma TurnTaken<T>(p: Pipe<T>, delay: Option<int>, now: int)
    requires p.q.Valid() && p.q.queue != []
    requires delay.Some? ==> !p.q.shuttingDown && |p.chan| < CHANNEL_CAPACITY
    ensures TookTurn(p, p.q.queue[0], delay, now, AfterTurn(p, delay, now))
  {
    TurnRuns(p, delay, now);
    TurnMeans(p, delay, now);
  }

  lemma SentAtOnce<T>(p: Pipe<T>, c: Call<T>, p': Pipe<T>)
    requires !p.q.shuttingDown ==> Did(p, [Request(c), Step.Send(c)], p')
    ensures !p.q.shuttingDown ==>
              Enabled(Apply(p, Request(c)), Step.Send(c)) && p' == Apply(Apply(p, Request(c)), Step.Send(c))
  {
    Extend(p, [], Request(c));
    Extend(p, [Request(c)], Step.Send(c));
    assert [] + [Request(c)] == [Request(c)] && [Request(c)] + [Step.Send(c)] == [Request(c), Step.Send(c)];
  }

  class Reconciler<T(==, 0)> {
    const queue: RateLimitingQueue<T>

    ghost predicate Valid()
      reads queue, queue.queue, queue.queue.slice, queue.queue.inner, queue.queue.Repr()
    {
      queue.Valid()
    }

    ghost function Pipeline(): Pipe<T>
      reads queue.queue, queue.queue.inner, queue.queue.slice
    {
      queue.queue.View()
    }

    constructor (queue: RateLimitingQueue<T>)
      requires queue.Valid()
      ensures Valid() && this.queue == queue
    {
      this.queue := queue;
    }

    /** Queue and back-off, as module Bursts has them. */
    ghost function Front(): Bursts.Front<T>
      requires queue.HasDefaultLimiter()
      reads queue.queue, queue.queue.inner, queue.queue.slice, queue.limiter.limiters
    {
      Bursts.Front(Pipeline(), queue.limiter.limiters[0].state)
    }

    /** Dirty: a rate-limited add of the item, `take` being what the bucket says,
        and the sending of the request that it makes. */
    method Dirty(x: T, take: nat, now: int)
      requires Valid() && queue.HasRoom() && queue.HasDefaultLimiter()
      modifies queue.queue.Repr(), queue.limiter.limiters
      ensures Valid() && queue.HasDefaultLimiter()
      ensures var f := Bursts.FrontApply(old(Front()), Bursts.AddRateLimited(x, take, now));
              var send := Bursts.Inside(Step.Send(CallFor(x, Bursts.DelayFor(old(Front()), x, take), now)));
              if old(Pipeline().q.shuttingDown) then Front() == f
              else Bursts.FrontEnabled(f, send) && Front() == Bursts.FrontApply(f, send)
      ensures !old(Pipeline().q.shuttingDown) ==>
                var deadline := now + old(queue.DefaultDelay(x, [0, take]));
                Pipeline() == old(Pipeline()).(chan := old(Pipeline()).chan + [WaitFor(x, deadline)])
    {
      ghost var f := Front();
      ghost var delay := queue.AddRateLimited(x, [0, take], now);
      assert delay == Bursts.DelayFor(f, x, take);
      SentAtOnce(f.pipe, CallFor(x, delay, now), Pipeline());
    }

    /** What a turn leaves of the limiters: forgotten after a success, counted
        once more after an error. */
    twostate predicate LimitersFollow(x: T, success: bool)
      reads queue.limiter.limiters
    {
      forall i :: 0 <= i < |queue.limiter.limiters| ==>
        var l := queue.limiter.limiters[i];
        l.state == if success then old(l.state).Forgotten(x) else old(l.state).Asked(x)
    }

    /** Fetch an item, reconcile, forget or requeue it, and report it done.
        `success` is what reconcile answers.  The item is in nobody's hands
        afterwards; after a failure before ShutDown it comes back after the
        longest of the limiters' answers, and otherwise not. */
    method ProcessNextWorkItem(success: bool, takes: seq<nat>, now: int)
      returns (goOn: bool, ghost delay: Option<int>)
      requires Valid() && queue.HasRoom() && Pipeline().q.CanGet() && |takes| == |queue.limiter.limiters|
      modifies queue.queue.Repr(), queue.limiter.limiters
      ensures Valid() && queue.queue.slice.buf == old(queue.queue.slice.buf)
      ensures goOn <==> old(Pipeline()).q.queue != []
      ensures !goOn ==> Pipeline() == old(Pipeline()) && Pipeline().q.dirty <= Pipeline().q.processing
      ensures goOn ==>
                var x := old(Pipeline()).q.queue[0];
                TookTurn(old(Pipeline()), x, delay, now, Pipeline()) && LimitersFollow(x, success)
      ensures goOn ==> (delay.Some? <==> !success && !old(Pipeline()).q.shuttingDown)
      ensures goOn && delay.Some? ==> IsLeastUpperBound(delay.value, old(queue.Answers(Pipeline().q.queue[0], takes)))
      ensures goOn && delay.Some? && old(queue.HasDefaultLimiter()) ==>
                delay.value == old(queue.DefaultDelay(Pipeline().q.queue[0], takes)) > 0
    {
      ghost var p := Pipeline();
      delay := None;
      var item := queue.queue.inner.Get(now);
      if item.None? {
        return false, None;
      }
      assert unchanged(queue.limiter.limiters);
      delay := TakeTurn(p, item.value, success, takes, now);
      goOn := true;
    }

    /** The turn on the item x, fetched from the state p. */
    method TakeTurn(ghost p: Pipe<T>, x: T, success: bool, takes: seq<nat>, now: int)
      returns (ghost delay: Option<int>)
      requires Valid() && queue.HasRoom() && |takes| == |queue.limiter.limiters|
      requires p.q.Valid() && p.q.queue != [] && x == p.q.queue[0] && Pipeline() == p.(q := p.q.Get())
      modifies queue.queue.Repr(), queue.limiter.limiters
      ensures Valid() && queue.queue.slice.buf == old(queue.queue.slice.buf)
      ensures TookTurn(p, x, delay, now, Pipeline())
      ensures delay.Some? <==> !success && !old(Pipeline()).q.shuttingDown
      ensures delay.Some? ==> IsLeastUpperBound(delay.value, old(queue.Answers(x, takes)))
      ensures delay.Some? && old(queue.HasDefaultLimiter()) ==>
                delay.value == old(queue.DefaultDelay(x, takes)) > 0
      ensures LimitersFollow(x, success)
    {
      delay := ReconcileItem(x, success, takes, now);
      ReportDone(p, x, delay, now);
    }

    /** The report that the item x, fetched from the state p, is done. */
    method ReportDone(ghost p: Pipe<T>, x: T, ghost delay: Option<int>, now: int)
      requires Valid() && p.q.Valid() && p.q.queue != [] && x == p.q.queue[0]
      requires delay.Some? ==> !p.q.shuttingDown && |p.chan| < CHANNEL_CAPACITY
      requires Pipeline() == Requeued(p.(q := p.q.Get()), x, delay, now)
      modifies queue.queue.inner.Repr
      ensures Valid() && TookTurn(p, x, delay, now, Pipeline())
    {
      queue.queue.inner.Done(x);
      TurnTaken(p, delay, now);
    }

    /** Reconcile, and on success forget the item, on an error requeue it after
        the longest of the limiters' answers. */
    method ReconcileItem(x: T, success: bool, takes: seq<nat>, now: int) returns (ghost delay: Option<int>)
      requires Valid() && queue.HasRoom() && |takes| == |queue.limiter.limiters|
      modifies queue.queue.Repr(), queue.limiter.limiters
      ensures Valid() && queue.queue.slice.buf == old(queue.queue.slice.buf)
      ensures Pipeline() == Requeued(old(Pipeline()), x, delay, now)
      ensures delay.Some? <==> !success && !old(Pipeline()).q.shuttingDown
      ensures delay.Some? ==> IsLeastUpperBound(delay.value, old(queue.Answers(x, takes)))
      ensures delay.Some? && old(queue.HasDefaultLimiter()) ==>
                delay.value == old(queue.DefaultDelay(x, takes)) > 0
      ensures LimitersFollow(x, success)
    {
      if success {
        queue.limiter.Forget(x);
        return None;
      }
      ghost var up := !queue.queue.inner.shuttingDown;
      ghost var d := queue.AddRateLimited(x, takes, now);
      delay := if up then Some(d) else None;
    }

    /** The worker after ShutDown: it ends, even if every reconcile fails, after
        exactly as many turns as the dirty set has lost; and if nobody else is
        processing, nothing is left. */
    method Drain(takes: seq<nat>, now: int) returns (turns: nat)
      requires Valid() && Pipeline().q.shuttingDown && |takes| == |queue.limiter.limiters|
      modifies queue.queue.Repr(), queue.limiter.limiters
      ensures Valid() && Pipeline().q.shuttingDown && Pipeline().q.queue == []
      ensures turns + |Pipeline().q.dirty| == |old(Pipeline()).q.dirty|
      ensures Pipeline().q.processing == old(Pipeline()).q.processing
      ensures old(Pipeline()).q.processing == {} ==> Pipeline().q.dirty == {}
    {
      turns := 0;
      while true
        invariant Valid() && queue.queue.slice.buf == old(queue.queue.slice.buf)
        invariant Pipeline().q.shuttingDown && Pipeline().q.processing == old(Pipeline()).q.processing
        invariant turns + |Pipeline().q.dirty| == |old(Pipeline()).q.dirty|
        decreases |Pipeline().q.dirty|
      {
        ghost var p := Pipeline();
        var success: bool := *;
        var goOn, _ := ProcessNextWorkItem(success, takes, now);
        if !goOn {
          break;
        }
        OneDirtyLess(p, Pipeline());
        turns := turns + 1;
      }
    }
  }

  lemma Fetched<T>(p: Pipe<T>)
    requires p.q.queue != []
    ensures Did(p, [Step.Get(p.q.queue[0])], p.(q := p.q.Get()))
  {
    Extend(p, [], Step.Get(p.q.queue[0]));
    assert [] + [Step.Get(p.q.queue[0])] == [Step.Get(p.q.queue[0])];
  }

  lemma DoneIt<T>(p: Pipe<T>, x: T)
    requires x in p.q.processing
    ensures Did(p, [Step.Done(x)], p.(q := p.q.Done(x)))
  {
    Extend(p, [], Step.Done(x));
    assert [] + [Step.Done(x)] == [Step<T>.Done(x)];
  }

  lemma OneDirtyLess<T>(p: Pipe<T>, p': Pipe<T>)
    requires p.q.Valid() && p.q.queue != [] && TurnedTo(p, None, 0, p')
    ensures |p'.q.dirty| == |p.q.dirty| - 1
  {
    GetKeepsValid(p.q);
  }
}
