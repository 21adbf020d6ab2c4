/** Whole runs of the work queue of `pkg/forked/workqueue/queue.go`: what its
    sets mean in terms of the calls made so far, the order of delivery, the
    draining after ShutDown, and the agreement of the metrics. */
module QueueHistory {
  import opened Prelude
  import opened WorkQueues
  import Runs

  /** One completed call under the queue's lock. */
  datatype Event<T> =
    | Added(x: T)      // Add(x) returned, whether or not it was accepted
    | Got(x: T)        // Get returned x
    | Quit             // Get told its caller to end
    | Finished(x: T)   // Done(x) returned
    | Stopped          // ShutDown returned

  predicate Enabled<T(==)>(q: QueueState<T>, e: Event<T>) {
    match e
    case Got(x) => q.queue != [] && q.queue[0] == x
    case Quit => q.queue == [] && q.shuttingDown
    case Finished(x) => x in q.processing
    case _ => true
  }

  function Apply<T(==)>(q: QueueState<T>, e: Event<T>): QueueState<T> {
    match e
    case Added(x) => q.Add(x)
    case Got(x) => if q.queue == [] then q else q.Get()
    case Quit => q
    case Finished(x) => q.Done(x)
    case Stopped => q.ShutDown()
  }

  function Calls<T(==)>(): Runs.System<QueueState<T>, Event<T>> {
    Runs.System((q, e) => Enabled(q, e), (q, e) => Apply(q, e))
  }

  function After<T(==)>(q: QueueState<T>, es: seq<Event<T>>): QueueState<T> {
    Runs.After(Calls<T>(), q, es)
  }

  /** `es` is a possible sequence of calls from `q` that respects the protocol
      of Done. */
  predicate IsRun<T(==)>(q: QueueState<T>, es: seq<Event<T>>) {
    Runs.IsRun(Calls<T>(), q, es)
  }

  lemma LastCall<T>(q: QueueState<T>, es: seq<Event<T>>)
    requires es != []
    ensures var init, e := es[..|es| - 1], es[|es| - 1];
            && After(q, es) == Apply(After(q, init), e)
            && (IsRun(q, es) <==> IsRun(q, init) && Enabled(After(q, init), e))
  {
  }

  lemma {:induction false} RunKeepsValid<T>(q: QueueState<T>, es: seq<Event<T>>)
    requires q.Valid() && IsRun(q, es)
    ensures After(q, es).Valid()
  {
    if es != [] {
      LastCall(q, es);
      var init, e := es[..|es| - 1], es[|es| - 1];
      RunKeepsValid(q, init);
      var p := After(q, init);
      match e
      case Added(x) => AddKeepsValid(p, x);
      case Got(x) => GetKeepsValid(p);
      case Finished(x) => DoneKeepsValidIff(p, x);
      case _ =>
    }
  }

  // What the sets mean

  /** An Add(x) made before any ShutDown, with no later delivery of x. */
  ghost predicate AddedSinceGet<T>(es: seq<Event<T>>, x: T) {
    exists i :: 0 <= i < |es| && AddedAt(es, i, x)
  }

  ghost predicate AddedAt<T>(es: seq<Event<T>>, i: nat, x: T)
    requires i < |es|
  {
    es[i] == Added(x) && Stopped !in es[..i] && Got(x) !in es[i + 1..]
  }

  /** A delivery of x with no Done(x) after it. */
  ghost predicate HandedOut<T>(es: seq<Event<T>>, x: T) {
    exists i :: 0 <= i < |es| && HandedOutAt(es, i, x)
  }

  ghost predicate HandedOutAt<T>(es: seq<Event<T>>, i: nat, x: T)
    requires i < |es|
  {
    es[i] == Got(x) && Finished(x) !in es[i + 1..]
  }

  lemma {:induction false} StoppedMeansShuttingDown<T>(es: seq<Event<T>>)
    requires IsRun(Empty<T>(), es)
    ensures After(Empty<T>(), es).shuttingDown <==> Stopped in es
  {
    if es != [] {
      LastCall(Empty<T>(), es);
      var init := es[..|es| - 1];
      StoppedMeansShuttingDown(init);
      assert es == init + [es[|es| - 1]];
    }
  }

  lemma AddedAtStep<T>(init: seq<Event<T>>, e: Event<T>, i: nat, x: T)
    requires i < |init|
    ensures AddedAt(init + [e], i, x) <==> AddedAt(init, i, x) && e != Got(x)
  {
    var es := init + [e];
    assert es[..i] == init[..i] && es[i + 1..] == init[i + 1..] + [e];
  }

  lemma AddedSinceGetStep<T>(init: seq<Event<T>>, e: Event<T>, x: T)
    ensures AddedSinceGet(init + [e], x) <==>
            (e == Added(x) && Stopped !in init) || (e != Got(x) && AddedSinceGet(init, x))
  {
    var es := init + [e];
    assert es[..|init|] == init && es[|init| + 1..] == [];
    assert AddedAt(es, |init|, x) <==> e == Added(x) && Stopped !in init;
    forall i | 0 <= i < |init|
      ensures AddedAt(es, i, x) <==> AddedAt(init, i, x) && e != Got(x)
    {
      AddedAtStep(init, e, i, x);
    }
  }

  lemma HandedOutAtStep<T>(init: seq<Event<T>>, e: Event<T>, i: nat, x: T)
    requires i < |init|
    ensures HandedOutAt(init + [e], i, x) <==> HandedOutAt(init, i, x) && e != Finished(x)
  {
    assert (init + [e])[i + 1..] == init[i + 1..] + [e];
  }

  lemma HandedOutStep<T>(init: seq<Event<T>>, e: Event<T>, x: T)
    ensures HandedOut(init + [e], x) <==> e == Got(x) || (e != Finished(x) && HandedOut(init, x))
  {
    var es := init + [e];
    assert es[|init| + 1..] == [];
    assert HandedOutAt(es, |init|, x) <==> e == Got(x);
    forall i | 0 <= i < |init|
      ensures HandedOutAt(es, i, x) <==> HandedOutAt(init, i, x) && e != Finished(x)
    {
      HandedOutAtStep(init, e, i, x);
    }
  }

  /** In every run from an empty queue: the list is exactly the dirty items not
      being processed, each once; an item is dirty just when an accepted Add of
      it has not been delivered since; and it is being processed just when it
      was handed out and not reported done since. */
  lemma {:induction false} SetsMatchHistory<T>(es: seq<Event<T>>, x: T)
    requires IsRun(Empty<T>(), es)
    ensures After(Empty<T>(), es).Valid()
    ensures x in After(Empty<T>(), es).dirty <==> AddedSinceGet(es, x)
    ensures x in After(Empty<T>(), es).processing <==> HandedOut(es, x)
  {
    RunKeepsValid(Empty<T>(), es);
    if es != [] {
      var init, e := es[..|es| - 1], es[|es| - 1];
      LastCall(Empty<T>(), es);
      SetsMatchHistory(init, x);
      StoppedMeansShuttingDown(init);
      AddedSinceGetStep(init, e, x);
      HandedOutStep(init, e, x);
      assert es == init + [e];
    }
  }

  /** No item is ever in the hands of two workers: between two deliveries of
      the same item there is a Done for it. */
  lemma NeverHandedOutTwice<T>(es: seq<Event<T>>, i: nat, j: nat, x: T)
    requires IsRun(Empty<T>(), es) && i < j < |es| && es[i] == es[j] == Got(x)
    ensures Finished(x) in es[i + 1..j]
  {
    Runs.Prefix(Calls<T>(), Empty<T>(), es, j + 1);
    LastCall(Empty<T>(), es[..j + 1]);
    var init := es[..j + 1][..j];
    assert init == es[..j];
    RunKeepsValid(Empty<T>(), init);
    GetKeepsValid(After(Empty<T>(), init));
    SetsMatchHistory(init, x);
    assert !HandedOutAt(init, i, x);
    assert init[i] == Got(x) && init[i + 1..] == es[i + 1..j];
  }

  // Order of delivery

  /** The items that Get returned, in order. */
  function Delivered<T>(es: seq<Event<T>>): seq<T> {
    if es == [] then []
    else
      var e := es[|es| - 1];
      Delivered(es[..|es| - 1]) + if e.Got? then [e.x] else []
  }

  /** What a call puts at the end of the list. */
  function Appends<T(==)>(q: QueueState<T>, e: Event<T>): seq<T> {
    match e
    case Added(x) => if q.shuttingDown || x in q.dirty || x in q.processing then [] else [x]
    case Finished(x) => if x in q.dirty then [x] else []
    case _ => []
  }

  /** The items that were put at the end of the list, in order. */
  function Enqueued<T(==)>(q: QueueState<T>, es: seq<Event<T>>): seq<T> {
    if es == [] then []
    else Enqueued(q, es[..|es| - 1]) + Appends(After(q, es[..|es| - 1]), es[|es| - 1])
  }

  lemma CallConserves<T>(q: QueueState<T>, e: Event<T>)
    requires Enabled(q, e)
    ensures q.queue + Appends(q, e) == (if e.Got? then [e.x] else []) + Apply(q, e).queue
  {
  }

  /** Conservation: what was listed at first and what was appended since is
      what was delivered and what is still listed, in the same order. */
  lemma {:induction false} DeliveryConserves<T>(q: QueueState<T>, es: seq<Event<T>>)
    requires IsRun(q, es)
    ensures q.queue + Enqueued(q, es) == Delivered(es) + After(q, es).queue
  {
    if es != [] {
      LastCall(q, es);
      var init, e := es[..|es| - 1], es[|es| - 1];
      DeliveryConserves(q, init);
      var p := After(q, init);
      CallConserves(p, e);
      Rechain(q.queue, Enqueued(q, init), Appends(p, e), Delivered(init), p.queue,
              if e.Got? then [e.x] else [], Apply(p, e).queue);
    }
  }

  lemma Rechain<T>(start: seq<T>, enq: seq<T>, enq': seq<T>, dlv: seq<T>, mid: seq<T>, dlv': seq<T>, end: seq<T>)
    requires start + enq == dlv + mid && mid + enq' == dlv' + end
    ensures start + (enq + enq') == (dlv + dlv') + end
  {
    calc {
      start + (enq + enq');
      (start + enq) + enq';
      dlv + (mid + enq');
      (dlv + dlv') + end;
    }
  }

  /** First in, first out: an item at position k is returned by exactly the
      (k+1)-th Get that follows, and until then it only moves up. */
  lemma {:induction false} DeliveredInOrder<T>(q: QueueState<T>, es: seq<Event<T>>, k: nat)
    requires IsRun(q, es) && k < |q.queue|
    ensures k < |Delivered(es)| ==> Delivered(es)[k] == q.queue[k]
    ensures k >= |Delivered(es)| ==>
              k - |Delivered(es)| < |After(q, es).queue| &&
              After(q, es).queue[k - |Delivered(es)|] == q.queue[k]
  {
    DeliveryConserves(q, es);
    assert (q.queue + Enqueued(q, es))[k] == q.queue[k];
  }

  // Draining

  /** After ShutDown nothing becomes dirty any more and every delivery takes
      one item off: however the workers behave, the number of deliveries is
      what the dirty set has lost. */
  lemma {:induction false} DrainsAfterShutDown<T>(q: QueueState<T>, es: seq<Event<T>>)
    requires q.Valid() && q.shuttingDown && IsRun(q, es)
    ensures After(q, es).shuttingDown && After(q, es).dirty <= q.dirty
    ensures |Delivered(es)| + |After(q, es).dirty| == |q.dirty|
  {
    if es != [] {
      var init, e := es[..|es| - 1], es[|es| - 1];
      LastCall(q, es);
      DrainsAfterShutDown(q, init);
      if e.Got? {
        RunKeepsValid(q, init);
        GetKeepsValid(After(q, init));
      }
    }
  }

  /** When a caller is told to end and nothing is being processed, nothing is
      left to process. */
  lemma QuitMeansDrained<T>(es: seq<Event<T>>)
    requires IsRun(Empty<T>(), es) && es != [] && es[|es| - 1] == Quit
    requires After(Empty<T>(), es).processing == {}
    ensures After(Empty<T>(), es).dirty == {}
  {
    RunKeepsValid(Empty<T>(), es);
    LastCall(Empty<T>(), es);
    var q := After(Empty<T>(), es);
    assert Elements(q.queue) == {};
  }

  // Metrics

  /** The metrics after one more call, made at time `now` on the queue `q`. */
  function Meter<T(==)>(m: Meters<T>, q: QueueState<T>, e: Event<T>, now: int): Meters<T> {
    match e
    case Added(x) => if q.shuttingDown || x in q.dirty then m else m.Add(x, now)
    case Got(x) => m.Get(x, now)
    case Finished(x) => m.Done(x)
    case _ => m
  }

  /** The metrics of a named queue after `es`, the n-th call being made at
      time clock(n). */
  function Metered<T(==)>(es: seq<Event<T>>, clock: nat -> int): Meters<T> {
    if es == [] then Meters(0, 0, map[], map[])
    else
      var n := |es| - 1;
      Meter(Metered(es[..n], clock), After(Empty<T>(), es[..n]), es[n], clock(n))
  }

  lemma MeterTracks<T>(m: Meters<T>, q: QueueState<T>, e: Event<T>, now: int)
    requires q.Valid() && m.Track(q) && Enabled(q, e)
    ensures Meter(m, q, e, now).Track(Apply(q, e))
  {
    match e
    case Added(x) =>
      if !q.shuttingDown && x !in q.dirty {
        AddTracked(m, q, x, now);
      }
    case Got(x) =>
      GetKeepsValid(q);
      GetTracked(m, q, now);
    case Finished(x) => DoneTracked(m, q, x);
    case _ =>
  }

  /** In every run the metrics describe the queue. */
  lemma {:induction false} MetricsTrackQueue<T>(es: seq<Event<T>>, clock: nat -> int)
    requires IsRun(Empty<T>(), es)
    ensures Metered(es, clock).Track(After(Empty<T>(), es))
  {
    if es != [] {
      var n := |es| - 1;
      LastCall(Empty<T>(), es);
      MetricsTrackQueue(es[..n], clock);
      RunKeepsValid(Empty<T>(), es[..n]);
      MeterTracks(Metered(es[..n], clock), After(Empty<T>(), es[..n]), es[n], clock(n));
    }
  }

  /** Call i is an add of x that was accepted, and x has not been delivered
      since. */
  ghost predicate AcceptedAt<T>(es: seq<Event<T>>, i: nat, x: T) {
    && i < |es| && es[i] == Added(x) && Got(x) !in es[i..]
    && x !in After(Empty<T>(), es[..i]).dirty && !After(Empty<T>(), es[..i]).shuttingDown
  }

  /** Call i is the last delivery of x. */
  ghost predicate DeliveredAt<T>(es: seq<Event<T>>, i: nat, x: T) {
    i < |es| && es[i] == Got(x) && Got(x) !in es[i + 1..]
  }

  lemma TimesStay<T>(es: seq<Event<T>>, i: nat, x: T)
    requires es != [] && i < |es| - 1 && es[|es| - 1] != Got(x)
    ensures AcceptedAt(es[..|es| - 1], i, x) ==> AcceptedAt(es, i, x)
    ensures DeliveredAt(es[..|es| - 1], i, x) ==> DeliveredAt(es, i, x)
  {
    var init, e := es[..|es| - 1], es[|es| - 1];
    assert init[..i] == es[..i];
    assert es[i..] == init[i..] + [e] && es[i + 1..] == init[i + 1..] + [e];
  }

  lemma AddTimeStep<T>(es: seq<Event<T>>, clock: nat -> int, x: T)
    requires IsRun(Empty<T>(), es) && es != [] && x in Metered(es, clock).addTimes
    ensures var n := |es| - 1;
            var m0, m := Metered(es[..n], clock), Metered(es, clock);
            if x in m0.addTimes then es[n] != Got(x) && m.addTimes[x] == m0.addTimes[x]
            else AcceptedAt(es, n, x) && m.addTimes[x] == clock(n)
  {
    var n := |es| - 1;
    LastCall(Empty<T>(), es);
    MetricsTrackQueue(es[..n], clock);
    assert es[n..] == [es[n]];
  }

  /** The time kept of a waiting item is that of its first add since its last
      delivery. */
  lemma {:induction false} AddTimesMatchHistory<T>(es: seq<Event<T>>, clock: nat -> int, x: T) returns (i: nat)
    requires IsRun(Empty<T>(), es) && x in Metered(es, clock).addTimes
    ensures AcceptedAt(es, i, x) && Metered(es, clock).addTimes[x] == clock(i)
  {
    var n := |es| - 1;
    AddTimeStep(es, clock, x);
    LastCall(Empty<T>(), es);
    if x in Metered(es[..n], clock).addTimes {
      i := AddTimesMatchHistory(es[..n], clock, x);
      TimesStay(es, i, x);
    } else {
      i := n;
    }
  }

  lemma StartTimeStep<T>(es: seq<Event<T>>, clock: nat -> int, x: T)
    requires IsRun(Empty<T>(), es) && es != [] && x in Metered(es, clock).processingStartTimes
    ensures var n := |es| - 1;
            var m0, m := Metered(es[..n], clock), Metered(es, clock);
            if es[n] == Got(x) then DeliveredAt(es, n, x) && m.processingStartTimes[x] == clock(n)
            else x in m0.processingStartTimes && m.processingStartTimes[x] == m0.processingStartTimes[x]
  {
    assert es[|es|..] == [];
  }

  /** The time kept of an item in processing is that of its last delivery. */
  lemma {:induction false} StartTimesMatchHistory<T>(es: seq<Event<T>>, clock: nat -> int, x: T) returns (i: nat)
    requires IsRun(Empty<T>(), es) && x in Metered(es, clock).processingStartTimes
    ensures DeliveredAt(es, i, x) && Metered(es, clock).processingStartTimes[x] == clock(i)
  {
    var n := |es| - 1;
    StartTimeStep(es, clock, x);
    LastCall(Empty<T>(), es);
    if es[n] == Got(x) {
      i := n;
    } else {
      i := StartTimesMatchHistory(es[..n], clock, x);
      TimesStay(es, i, x);
    }
  }

  /** The depth gauge counts the listed items and those that will be listed
      again when their processing ends. */
  lemma DepthCounts<T>(es: seq<Event<T>>, clock: nat -> int)
    requires IsRun(Empty<T>(), es)
    ensures var q := After(Empty<T>(), es);
            Metered(es, clock).depth == |q.queue| + |q.dirty * q.processing|
  {
    MetricsTrackQueue(es, clock);
    RunKeepsValid(Empty<T>(), es);
    var q := After(Empty<T>(), es);
    ListingLength(q.queue);
    assert q.dirty == (q.dirty - q.processing) + (q.dirty * q.processing);
  }
}
