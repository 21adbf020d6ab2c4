/** Delayed adding as a step system (`pkg/forked/workqueue/delaying_queue.go`):
    a request travels from its caller through the buffered channel and the
    hands of the waiting loop into the waiting set, and from there into the
    inner queue.  The waiting set is the plain map from item to earliest
    deadline; module DelayingQueues shows that the sorted slice refines it. */
module DelayPipeline {
  import opened Prelude
  import opened WorkQueues
  import Runs

  const CHANNEL_CAPACITY: nat := 1000

  datatype WaitFor<T> = WaitFor(data: T, readyAt: int)

  /** A call of AddAfter that has passed its ShuttingDown test. */
  datatype Call<T> = Immediate(item: T) | Delayed(entry: WaitFor<T>)
  {
    function Item(): T {
      match this
      case Immediate(x) => x
      case Delayed(e) => e.data
    }
  }

  /** AddAfter as a call, given the delay. */
  function CallFor<T>(x: T, delay: int, now: int): Call<T> {
    if delay <= 0 then Immediate(x) else Delayed(WaitFor(x, now + delay))
  }

  /** The simple form of insert: keep the earlier of the two deadlines. */
  function InsertEarliest<T(==)>(waiting: map<T, int>, e: WaitFor<T>): map<T, int> {
    waiting[e.data := if e.data in waiting then Min(waiting[e.data], e.readyAt) else e.readyAt]
  }

  datatype Pipe<T(==)> = Pipe(
    inFlight: multiset<Call<T>>,  // callers inside AddAfter
    chan: seq<WaitFor<T>>,        // waitingForAddCh
    hand: Option<WaitFor<T>>,     // the entry the loop has received and not yet treated
    waiting: map<T, int>,         // waitingForAdd and waitingTimeByEntry
    q: QueueState<T>,             // the wrapped queue
    closed: bool)                 // stopCh is closed

  function Start<T>(): Pipe<T> {
    Pipe(multiset{}, [], None, map[], Empty(), false)
  }

  /** `now` is what the clock said at that moment: nothing is assumed of it. */
  datatype Step<T> =
    | Request(call: Call<T>)    // AddAfter, its test passed
    | Refuse(item: T)           // AddAfter, its test failed
    | Send(call: Call<T>)       // AddAfter completes
    | Abandon(call: Call<T>)    // AddAfter is unblocked by the closed stopCh
    | Receive                   // the loop takes an entry from the channel
    | Treat(now: int)           // ... and keeps it or adds it
    | Release(item: T, now: int) // the loop adds a waiting item that is due
    | Discard                   // the loop sees the shutdown
    | Add(item: T)
    | Get(item: T)
    | Done(item: T)
    | ShutDown
    | Close                     // ShutDown goes on to close stopCh

  predicate Enabled<T(==)>(p: Pipe<T>, s: Step<T>) {
    match s
    case Request(_) => !p.q.shuttingDown
    case Refuse(_) => p.q.shuttingDown
    case Send(c) => c in p.inFlight && (c.Delayed? ==> |p.chan| < CHANNEL_CAPACITY)
    case Abandon(c) => c in p.inFlight && c.Delayed? && p.closed
    case Receive => p.chan != [] && p.hand.None?
    case Treat(_) => p.hand.Some?
    case Release(x, now) => x in p.waiting && p.waiting[x] <= now
    case Discard => p.q.shuttingDown
    case Get(x) => p.q.queue != [] && p.q.queue[0] == x
    case Done(x) => x in p.q.processing
    case Close => p.q.shuttingDown
    case _ => true
  }

  function Apply<T(==)>(p: Pipe<T>, s: Step<T>): Pipe<T> {
    match s
    case Request(c) => p.(inFlight := p.inFlight + multiset{c})
    case Send(c) =>
      var p' := p.(inFlight := p.inFlight - multiset{c});
      (match c
       case Immediate(x) => p'.(q := p.q.Add(x))
       case Delayed(e) => p'.(chan := p.chan + [e]))
    case Abandon(c) => p.(inFlight := p.inFlight - multiset{c})
    case Receive =>
      if p.chan == [] then p else p.(chan := p.chan[1..], hand := Some(p.chan[0]))
    case Treat(now) =>
      if p.hand.None? then p
      else if p.hand.value.readyAt > now then
        p.(hand := None, waiting := InsertEarliest(p.waiting, p.hand.value))
      else p.(hand := None, q := p.q.Add(p.hand.value.data))
    case Release(x, _) => p.(waiting := p.waiting - {x}, q := p.q.Add(x))
    case Discard => p.(waiting := map[])
    case Add(x) => p.(q := p.q.Add(x))
    case Get(x) => if p.q.queue == [] then p else p.(q := p.q.Get())
    case Done(x) => p.(q := p.q.Done(x))
    case ShutDown => p.(q := p.q.ShutDown())
    case Close => p.(closed := true)
    case Refuse(_) => p
  }

  function Steps<T(==)>(): Runs.System<Pipe<T>, Step<T>> {
    Runs.System((p, s) => Enabled(p, s), (p, s) => Apply(p, s))
  }

  function After<T(==)>(p: Pipe<T>, ss: seq<Step<T>>): Pipe<T> {
    Runs.After(Steps<T>(), p, ss)
  }

  predicate IsRun<T(==)>(p: Pipe<T>, ss: seq<Step<T>>) {
    Runs.IsRun(Steps<T>(), p, ss)
  }

  lemma LastStep<T>(p: Pipe<T>, ss: seq<Step<T>>)
    requires ss != []
    ensures var init, s := ss[..|ss| - 1], ss[|ss| - 1];
            && After(p, ss) == Apply(After(p, init), s)
            && (IsRun(p, ss) <==> IsRun(p, init) && Enabled(After(p, init), s))
  {
  }

  lemma Extend<T>(p: Pipe<T>, ss: seq<Step<T>>, s: Step<T>)
    ensures After(p, ss + [s]) == Apply(After(p, ss), s)
    ensures IsRun(p, ss + [s]) <==> IsRun(p, ss) && Enabled(After(p, ss), s)
  {
  }

  // Never lost

  /** Somewhere before the inner queue, x waits with a deadline no later
      than r. */
  predicate WaitsBy<T(==)>(p: Pipe<T>, x: T, r: int) {
    || (exists c :: c in p.inFlight && c.Delayed? && c.entry.data == x && c.entry.readyAt <= r)
    || (exists e :: e in p.chan && e.data == x && e.readyAt <= r)
    || (p.hand.Some? && p.hand.value.data == x && p.hand.value.readyAt <= r)
    || (x in p.waiting && p.waiting[x] <= r)
  }

  /** The step `s`, taken in `p`, hands x to the inner queue. */
  predicate AddsToInner<T(==)>(p: Pipe<T>, s: Step<T>, x: T) {
    match s
    case Send(c) => c == Immediate(x)
    case Treat(now) => p.hand.Some? && p.hand.value.data == x && p.hand.value.readyAt <= now
    case Release(y, _) => y == x
    case Add(y) => y == x
    case _ => false
  }

  /** In the run `ss` from the start, step k hands x to the inner queue. */
  predicate AddedAt<T(==)>(ss: seq<Step<T>>, k: nat, x: T)
    requires k < |ss|
  {
    AddsToInner(After(Start<T>(), ss[..k]), ss[k], x)
  }

  lemma StepKeepsWaiting<T>(p: Pipe<T>, s: Step<T>, x: T, r: int)
    requires Enabled(p, s) && WaitsBy(p, x, r) && !Apply(p, s).q.shuttingDown && !p.closed
    ensures WaitsBy(Apply(p, s), x, r) || AddsToInner(p, s, x)
  {
  }

  lemma StepKeepsOpen<T>(p: Pipe<T>, s: Step<T>)
    requires Enabled(p, s) && (p.closed ==> p.q.shuttingDown)
    ensures p.q.shuttingDown ==> Apply(p, s).q.shuttingDown
    ensures Apply(p, s).closed ==> Apply(p, s).q.shuttingDown
  {
  }

  lemma {:induction false} OpenWhileRunning<T>(ss: seq<Step<T>>)
    requires IsRun(Start<T>(), ss) && !After(Start<T>(), ss).q.shuttingDown
    ensures !After(Start<T>(), ss).closed
    ensures ss != [] ==> !After(Start<T>(), ss[..|ss| - 1]).q.shuttingDown
  {
    if ss != [] {
      LastStep(Start<T>(), ss);
      var init := ss[..|ss| - 1];
      if !After(Start<T>(), init).q.shuttingDown {
        OpenWhileRunning(init);
      }
      StepKeepsOpen(After(Start<T>(), init), ss[|ss| - 1]);
    }
  }

  /** Until the queue is shut down, an accepted delayed request keeps its item
      on the way with a deadline no later than requested, until the item is
      added to the inner queue. */
  lemma {:induction false} RequestNeverLost<T>(ss: seq<Step<T>>, i: nat, e: WaitFor<T>)
    requires IsRun(Start<T>(), ss) && i < |ss| && ss[i] == Request(Delayed(e))
    requires !After(Start<T>(), ss).q.shuttingDown
    ensures || WaitsBy(After(Start<T>(), ss), e.data, e.readyAt)
            || exists k :: i < k < |ss| && AddedAt(ss, k, e.data)
  {
    var n := |ss| - 1;
    var init := ss[..n];
    LastStep(Start<T>(), ss);
    OpenWhileRunning(ss);
    OpenWhileRunning(init);
    if i == n {
      assert Delayed(e) in After(Start<T>(), ss).inFlight;
    } else {
      RequestNeverLost(init, i, e);
      if WaitsBy(After(Start<T>(), init), e.data, e.readyAt) {
        StepKeepsWaiting(After(Start<T>(), init), ss[n], e.data, e.readyAt);
        assert AddedAt(ss, n, e.data) <==> AddsToInner(After(Start<T>(), init), ss[n], e.data);
      } else {
        var k :| i < k < |init| && AddedAt(init, k, e.data);
        assert init[..k] == ss[..k];
        assert AddedAt(ss, k, e.data);
      }
    }
  }

  /** Somewhere in the pipeline, up to and including the inner queue, x is
      still to be processed. */
  predicate Pending<T(==)>(p: Pipe<T>, x: T) {
    || (exists c :: c in p.inFlight && c.Item() == x)
    || (exists e :: e in p.chan && e.data == x)
    || (p.hand.Some? && p.hand.value.data == x)
    || x in p.waiting
    || x in p.q.dirty
  }

  /** Only a delivery ends that. */
  lemma StepKeepsPending<T>(p: Pipe<T>, s: Step<T>, x: T)
    requires Enabled(p, s) && Pending(p, x) && s != Get(x)
    requires !p.q.shuttingDown && !p.closed && !Apply(p, s).q.shuttingDown
    ensures Pending(Apply(p, s), x)
  {
  }

  // Never unjustified

  ghost predicate Requested<T>(ss: seq<Step<T>>, e: WaitFor<T>) {
    Request(Delayed(e)) in ss
  }

  /** Every entry of x on the way was requested, with that very deadline. */
  ghost predicate AllRequested<T(!new)>(ss: seq<Step<T>>, p: Pipe<T>, x: T) {
    && (forall c :: c in p.inFlight && c.Delayed? && c.entry.data == x ==> Requested(ss, c.entry))
    && (forall e :: e in p.chan && e.data == x ==> Requested(ss, e))
    && (p.hand.Some? && p.hand.value.data == x ==> Requested(ss, p.hand.value))
    && (x in p.waiting ==> Requested(ss, WaitFor(x, p.waiting[x])))
  }

  lemma CallerKeepsRequested<T(!new)>(ss: seq<Step<T>>, p: Pipe<T>, s: Step<T>, x: T)
    requires AllRequested(ss, p, x) && Enabled(p, s) && s in ss && (s.Request? || s.Send? || s.Abandon?)
    ensures AllRequested(ss, Apply(p, s), x)
  {
  }

  lemma LoopKeepsRequested<T(!new)>(ss: seq<Step<T>>, p: Pipe<T>, s: Step<T>, x: T)
    requires AllRequested(ss, p, x) && Enabled(p, s) && (s.Receive? || s.Treat? || s.Release? || s.Discard?)
    ensures AllRequested(ss, Apply(p, s), x)
  {
  }

  lemma StepKeepsRequested<T(!new)>(ss: seq<Step<T>>, p: Pipe<T>, s: Step<T>, x: T)
    requires AllRequested(ss, p, x) && Enabled(p, s) && s in ss
    ensures AllRequested(ss, Apply(p, s), x)
  {
    if s.Request? || s.Send? || s.Abandon? {
      CallerKeepsRequested(ss, p, s, x);
    } else if s.Receive? || s.Treat? || s.Release? || s.Discard? {
      LoopKeepsRequested(ss, p, s, x);
    }
  }

  lemma StillRequested<T(!new)>(ss: seq<Step<T>>, s: Step<T>, p: Pipe<T>, x: T)
    requires AllRequested(ss, p, x)
    ensures AllRequested(ss + [s], p, x)
  {
  }

  lemma RequestedAfterStep<T(!new)>(ss: seq<Step<T>>, p: Pipe<T>, s: Step<T>, x: T)
    requires AllRequested(ss, p, x) && Enabled(p, s)
    ensures AllRequested(ss + [s], Apply(p, s), x)
  {
    StillRequested(ss, s, p, x);
    StepKeepsRequested(ss + [s], p, s, x);
  }

  /** x is on the way to the waiting set. */
  predicate Underway<T(==)>(p: Pipe<T>, x: T) {
    || (exists c :: c in p.inFlight && c.Delayed? && c.entry.data == x)
    || (exists e :: e in p.chan && e.data == x)
    || (p.hand.Some? && p.hand.value.data == x)
  }

  predicate WaitsNowhere<T(==)>(p: Pipe<T>, x: T) {
    !Underway(p, x) && x !in p.waiting
  }

  lemma NothingToRequest<T(!new)>(ss: seq<Step<T>>, p: Pipe<T>, x: T)
    requires WaitsNowhere(p, x)
    ensures AllRequested(ss, p, x)
  {
  }

  /** ... if x was nowhere on the way at first. */
  lemma {:induction false} EntriesAreRequested<T(!new)>(p: Pipe<T>, ss: seq<Step<T>>, x: T)
    requires WaitsNowhere(p, x) && IsRun(p, ss)
    ensures AllRequested(ss, After(p, ss), x)
  {
    if ss == [] {
      NothingToRequest(ss, p, x);
    } else {
      var init, s := ss[..|ss| - 1], ss[|ss| - 1];
      LastStep(p, ss);
      EntriesAreRequested(p, init, x);
      assert ss == init + [s];
      RequestedAfterStep(init, After(p, init), s, x);
    }
  }

  /** Whenever the loop adds an item to the inner queue at time `now`, someone
      had asked for that item at a deadline that has passed. */
  lemma LoopAddsAreJustified<T(!new)>(ss: seq<Step<T>>, k: nat, x: T)
    requires IsRun(Start<T>(), ss) && k < |ss| && (ss[k].Treat? || ss[k].Release?)
    requires AddedAt(ss, k, x)
    ensures exists i, r :: 0 <= i < k && ss[i] == Request(Delayed(WaitFor(x, r))) && r <= ss[k].now
  {
    Runs.Prefix(Steps<T>(), Start<T>(), ss, k);
    Runs.Prefix(Steps<T>(), Start<T>(), ss, k + 1);
    LastStep(Start<T>(), ss[..k + 1]);
    assert ss[..k + 1][..k] == ss[..k];
    EntriesAreRequested(Start<T>(), ss[..k], x);
    var p := After(Start<T>(), ss[..k]);
    var e := if ss[k].Treat? then p.hand.value else WaitFor(x, p.waiting[x]);
    assert Requested(ss[..k], e);
    var i :| 0 <= i < k && ss[..k][i] == Request(Delayed(e));
    assert ss[i] == Request(Delayed(WaitFor(x, e.readyAt)));
  }

  // Bursts

  /** Steps n and later do not hand x to the inner queue. */
  ghost predicate NotAddedSince<T>(ss: seq<Step<T>>, n: nat, x: T) {
    forall k :: n <= k < |ss| ==> !AddedAt(ss, k, x)
  }

  lemma RequestStillWaits<T>(ss: seq<Step<T>>, n: nat, x: T, i: nat, r: int)
    requires IsRun(Start<T>(), ss) && !After(Start<T>(), ss).q.shuttingDown && NotAddedSince(ss, n, x)
    requires n <= i < |ss| && ss[i] == Request(Delayed(WaitFor(x, r))) && !Underway(After(Start<T>(), ss), x)
    ensures x in After(Start<T>(), ss).waiting && After(Start<T>(), ss).waiting[x] <= r
  {
    RequestNeverLost(ss, i, WaitFor(x, r));
  }

  lemma AllStillWait<T>(ss: seq<Step<T>>, n: nat, x: T)
    requires IsRun(Start<T>(), ss) && n <= |ss| && !After(Start<T>(), ss).q.shuttingDown && NotAddedSince(ss, n, x)
    requires !Underway(After(Start<T>(), ss), x)
    ensures var w := After(Start<T>(), ss).waiting;
            forall r :: Requested(ss[n..], WaitFor(x, r)) ==> x in w && w[x] <= r
  {
    forall r | Requested(ss[n..], WaitFor(x, r))
      ensures x in After(Start<T>(), ss).waiting && After(Start<T>(), ss).waiting[x] <= r
    {
      var i :| 0 <= i < |ss[n..]| && ss[n..][i] == Request(Delayed(WaitFor(x, r)));
      RequestStillWaits(ss, n, x, n + i, r);
    }
  }

  lemma WaitingIsRequested<T(!new)>(ss: seq<Step<T>>, n: nat, x: T)
    requires IsRun(Start<T>(), ss) && n <= |ss| && WaitsNowhere(After(Start<T>(), ss[..n]), x)
    ensures var w := After(Start<T>(), ss).waiting; x in w ==> Requested(ss[n..], WaitFor(x, w[x]))
  {
    Runs.Suffix(Steps<T>(), Start<T>(), ss, n);
    EntriesAreRequested(After(Start<T>(), ss[..n]), ss[n..], x);
  }

  /** A burst of requests for x: it waits nowhere when they begin, at step n,
      none of them has led to an addition yet, and all of them have reached the
      waiting set.  Then the pending deadline is the earliest of those
      requested. */
  lemma BurstKeepsEarliest<T(!new)>(ss: seq<Step<T>>, n: nat, x: T)
    requires IsRun(Start<T>(), ss) && n <= |ss| && !After(Start<T>(), ss).q.shuttingDown
    requires WaitsNowhere(After(Start<T>(), ss[..n]), x) && NotAddedSince(ss, n, x)
    requires !Underway(After(Start<T>(), ss), x)
    ensures var w := After(Start<T>(), ss).waiting;
            && (x in w <==> exists r :: Requested(ss[n..], WaitFor(x, r)))
            && (x in w ==>
                  && Requested(ss[n..], WaitFor(x, w[x]))
                  && forall r :: Requested(ss[n..], WaitFor(x, r)) ==> w[x] <= r)
  {
    AllStillWait(ss, n, x);
    WaitingIsRequested(ss, n, x);
  }
}
