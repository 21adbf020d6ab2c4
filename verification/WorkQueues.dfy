/** The deduplicating work queue of `pkg/forked/workqueue/queue.go` and its
    bookkeeping in `metrics.go`.  `QueueState` and `Meters` are the values the
    two mutable classes are proved against. */
module WorkQueues {

  import opened Prelude

  /** A value of the queue's protected fields. */
  datatype QueueState<T(==)> = QueueState(
    queue: seq<T>, dirty: set<T>, processing: set<T>, shuttingDown: bool)
  {
    /** The documented invariant, made exact: the list holds, once each, the
        items that are dirty and not being processed. */
    ghost predicate Valid() {
      NoDuplicates(queue) && Elements(queue) == dirty - processing
    }

    function Add(x: T): QueueState<T> {
      if shuttingDown || x in dirty then this
      else this.(dirty := dirty + {x}, queue := if x in processing then queue else queue + [x])
    }

    /** The condition under which the wait loop of Get is left. */
    predicate CanGet() {
      queue != [] || shuttingDown
    }

    function Get(): QueueState<T>
      requires queue != []
    {
      QueueState(queue[1..], dirty - {queue[0]}, processing + {queue[0]}, shuttingDown)
    }

    function Done(x: T): QueueState<T> {
      this.(processing := processing - {x}, queue := if x in dirty then queue + [x] else queue)
    }

    function ShutDown(): QueueState<T> {
      this.(shuttingDown := true)
    }
  }

  function Empty<T>(): QueueState<T> {
    QueueState([], {}, {}, false)
  }

  lemma AddKeepsValid<T>(q: QueueState<T>, x: T)
    requires q.Valid()
    ensures q.Add(x).Valid()
  {
    var q' := q.Add(x);
    if q' != q && x !in q.processing {
      assert x !in Elements(q.queue);
      assert Elements(q'.queue) == Elements(q.queue) + {x};
    }
  }

  lemma GetKeepsValid<T>(q: QueueState<T>)
    requires q.Valid() && q.queue != []
    ensures q.Get().Valid()
    ensures q.queue[0] in q.dirty && q.queue[0] !in q.processing
  {
    assert q.queue[0] in Elements(q.queue);
    assert q.queue == [q.queue[0]] + q.queue[1..];
    assert Elements(q.Get().queue) == Elements(q.queue) - {q.queue[0]};
  }

  /** The protocol that callers of Done must follow is exactly what the
      invariant needs: an item that is dirty but not handed out would be
      listed a second time. */
  lemma DoneKeepsValidIff<T>(q: QueueState<T>, x: T)
    requires q.Valid()
    ensures q.Done(x).Valid() <==> x in q.processing || x !in q.dirty
  {
    var q' := q.Done(x);
    if x in q.processing {
      assert x !in Elements(q.queue);
      if x in q.dirty {
        assert Elements(q'.queue) == Elements(q.queue) + {x};
      }
    } else if x in q.dirty {
      assert x in Elements(q.queue);
      var i :| 0 <= i < |q.queue| && q.queue[i] == x;
      assert q'.queue[i] == q'.queue[|q.queue|];
    }
  }

  /** A value of the metrics of a named queue. */
  datatype Meters<T(==)> = Meters(
    depth: int, adds: nat, addTimes: map<T, int>, processingStartTimes: map<T, int>)
  {
    function Add(x: T, now: int): Meters<T> {
      Meters(depth + 1, adds + 1, if x in addTimes then addTimes else addTimes[x := now], processingStartTimes)
    }

    function Get(x: T, now: int): Meters<T> {
      Meters(depth - 1, adds, addTimes - {x}, processingStartTimes[x := now])
    }

    function Done(x: T): Meters<T> {
      this.(processingStartTimes := processingStartTimes - {x})
    }

    /** The metrics describe the queue: the depth gauge counts the dirty items
        (listed or to be listed again), and the two time maps are keyed by the
        dirty and by the processing items. */
    ghost predicate Track(q: QueueState<T>) {
      && depth == |q.dirty|
      && addTimes.Keys == q.dirty
      && processingStartTimes.Keys == q.processing
    }
  }

  lemma AddTracked<T>(m: Meters<T>, q: QueueState<T>, x: T, now: int)
    requires m.Track(q) && x !in q.dirty && !q.shuttingDown
    ensures m.Add(x, now).Track(q.Add(x))
  {
  }

  lemma GetTracked<T>(m: Meters<T>, q: QueueState<T>, now: int)
    requires m.Track(q) && q.queue != [] && q.queue[0] in q.dirty
    ensures m.Get(q.queue[0], now).Track(q.Get())
  {
  }

  lemma DoneTracked<T>(m: Meters<T>, q: QueueState<T>, x: T)
    requires m.Track(q)
    ensures m.Done(x).Track(q.Done(x))
  {
  }

  class QueueMetrics<T(==)> {
    var depth: int
    var adds: nat
    var addTimes: map<T, int>
    var processingStartTimes: map<T, int>

    ghost function View(): Meters<T>
      reads this
    {
      Meters(depth, adds, addTimes, processingStartTimes)
    }

    constructor ()
      ensures View() == Meters(0, 0, map[], map[])
    {
      depth, adds, addTimes, processingStartTimes := 0, 0, map[], map[];
    }

    method Add(x: T, now: int)
      modifies this
      ensures View() == old(View()).Add(x, now)
      ensures adds == old(adds) + 1 && depth == old(depth) + 1 && processingStartTimes == old(processingStartTimes)
      ensures addTimes == if x in old(addTimes) then old(addTimes) else old(addTimes)[x := now]
    {
      adds := adds + 1;
      depth := depth + 1;
      if x !in addTimes {
        addTimes := addTimes[x := now];
      }
    }

    method Get(x: T, now: int)
      modifies this
      ensures View() == old(View()).Get(x, now)
      ensures adds == old(adds) && depth == old(depth) - 1
      ensures addTimes == old(addTimes) - {x} && processingStartTimes == old(processingStartTimes)[x := now]
    {
      depth := depth - 1;
      processingStartTimes := processingStartTimes[x := now];
      if x in addTimes {
        addTimes := addTimes - {x};
      }
    }

    method Done(x: T)
      modifies this
      ensures View() == old(View()).Done(x)
      ensures adds == old(adds) && depth == old(depth) && addTimes == old(addTimes)
      ensures processingStartTimes == old(processingStartTimes) - {x}
    {
      if x in processingStartTimes {
        processingStartTimes := processingStartTimes - {x};
      }
    }
  }

  /** The queue with its lock held; `metrics` is null for an unnamed queue.
      Signalling of sleeping callers is the subject of module QueueWaiters. */
  class WorkQueue<T(==)> {
    var queue: seq<T>
    var dirty: set<T>
    var processing: set<T>
    var shuttingDown: bool
    const metrics: QueueMetrics?<T>
    ghost const Repr: set<object>

    ghost function State(): QueueState<T>
      reads this
    {
      QueueState(queue, dirty, processing, shuttingDown)
    }

    ghost predicate Valid()
      reads this, Repr
    {
      && this in Repr
      && State().Valid()
      && (metrics != null ==> metrics in Repr && metrics.View().Track(State()))
    }

    constructor (named: bool)
      ensures Valid() && fresh(Repr)
      ensures State() == Empty() && (metrics != null <==> named)
    {
      queue, dirty, processing, shuttingDown := [], {}, {}, false;
      if named {
        var m := new QueueMetrics<T>();
        metrics := m;
        Repr := {this, m};
      } else {
        metrics := null;
        Repr := {this};
      }
    }

    method Add(x: T, now: int)
      requires Valid()
      modifies Repr
      ensures Valid() && State() == old(State()).Add(x)
      ensures metrics != null ==>
                var m := old(metrics.View());
                metrics.View() == if old(shuttingDown) || x in old(dirty) then m else m.Add(x, now)
    {
      AddKeepsValid(State(), x);
      if shuttingDown {
        return;
      }
      if x in dirty {
        return;
      }
      if metrics != null {
        AddTracked(metrics.View(), State(), x, now);
        metrics.Add(x, now);
      }
      dirty := dirty + {x};
      if x in processing {
        return;
      }
      queue := queue + [x];
    }

    method Len() returns (n: nat)
      requires Valid()
      ensures n == |dirty - processing|
    {
      n := |queue|;
      ListingLength(queue);
    }

    /** The part of Get after its wait loop: a caller is let through only when
        CanGet holds.  `None` is the answer that ends the caller. */
    method Get(now: int) returns (item: Option<T>)
      requires Valid() && State().CanGet()
      modifies Repr
      ensures Valid()
      ensures item.None? <==> old(queue) == []
      ensures item.None? ==> State() == old(State()) && dirty <= processing
      ensures item.Some? ==> State() == old(State()).Get() && item.value == old(queue)[0]
      ensures item.Some? ==> item.value in old(dirty) && item.value !in old(processing)
      ensures item.Some? && metrics != null ==> metrics.View() == old(metrics.View()).Get(item.value, now)
    {
      if |queue| == 0 {
        assert Elements(queue) == {};
        return None;
      }
      GetKeepsValid(State());
      var x := queue[0];
      if metrics != null {
        GetTracked(metrics.View(), State(), now);
      }
      queue := queue[1..];
      if metrics != null {
        metrics.Get(x, now);
      }
      processing := processing + {x};
      dirty := dirty - {x};
      item := Some(x);
    }

    method Done(x: T)
      requires Valid() && x in processing
      modifies Repr
      ensures Valid() && State() == old(State()).Done(x)
      ensures metrics != null ==> metrics.View() == old(metrics.View()).Done(x)
    {
      DoneKeepsValidIff(State(), x);
      if metrics != null {
        metrics.Done(x);
      }
      processing := processing - {x};
      if x in dirty {
        queue := queue + [x];
      }
    }

    method ShutDown()
      requires Valid()
      modifies this
      ensures Valid() && State() == old(State()).ShutDown()
    {
      shuttingDown := true;
    }
  }
}
