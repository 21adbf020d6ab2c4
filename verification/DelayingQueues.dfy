/** The delaying queue of `pkg/forked/workqueue/delaying_queue.go`, with its
    entries in a slice of an array that is shifted in place.  Every method is
    proved to be a run of the step system of module DelayPipeline, so that what
    holds of all runs there holds of this code. */
module DelayingQueues {
  import opened Prelude
  import opened WorkQueues
  import opened DelayPipeline
  import opened WaitingList
  import Runs

  /** The case of the loop's select that fires.  The third, on stopCh, cannot
      fire in a pass that began before ShutDown and ran undisturbed. */
  datatype Wake = TimerFired | EntryArrived

  /** The releases of the entries `es`, in order, at time `now`. */
  function Releases<T>(es: seq<WaitFor<T>>, now: int): (ss: seq<Step<T>>)
    ensures |ss| == |es|
  {
    if es == [] then [] else Releases(es[..|es| - 1], now) + [Release(es[|es| - 1].data, now)]
  }

  /** p after a call of AddAfter: without a delay the item is added at once, and
      otherwise it is in the channel with its deadline. */
  function Accepted<T(==)>(p: Pipe<T>, x: T, delay: int, now: int): Pipe<T> {
    if delay <= 0 then p.(q := p.q.Add(x)) else p.(chan := p.chan + [WaitFor(x, now + delay)])
  }

  /** The receiving and treating of n entries, the i-th at time nows[i]. */
  function Treats<T>(nows: seq<int>, n: nat): (ss: seq<Step<T>>)
    requires n <= |nows|
    ensures |ss| == 2 * n
  {
    if n == 0 then [] else Treats<T>(nows, n - 1) + [Receive, Treat(nows[n - 1])]
  }

  /** The items due at `now`. */
  ghost function Due<T>(known: map<T, int>, now: int): set<T> {
    set x | x in known && known[x] <= now
  }

  /** The items of those of the first n entries that were due when treated. */
  ghost function DueEntries<T>(es: seq<WaitFor<T>>, nows: seq<int>, n: nat): set<T>
    requires n <= |es| && n <= |nows|
  {
    set i | 0 <= i < n && es[i].readyAt <= nows[i] :: es[i].data
  }

  /** Beside what waited before, exactly those of the first n entries wait that
      were not due when treated, each item with the earliest of its deadlines. */
  ghost predicate WaitsWith<T>(before: map<T, int>, es: seq<WaitFor<T>>, nows: seq<int>, n: nat, after: map<T, int>)
    requires n <= |es| && n <= |nows|
  {
    && (forall x :: x in before ==> x in after && after[x] <= before[x])
    && (forall i :: 0 <= i < n && es[i].readyAt > nows[i] ==> es[i].data in after && after[es[i].data] <= es[i].readyAt)
    && (forall x :: x in after ==>
          || (x in before && after[x] == before[x])
          || exists i :: 0 <= i < n && es[i].readyAt > nows[i] && es[i] == WaitFor(x, after[x]))
  }

  /** The queue has become dirty with the items `xs`, and nothing else. */
  ghost predicate Gained<T>(q: QueueState<T>, xs: set<T>, q': QueueState<T>) {
    q'.dirty == q.dirty + xs && q'.processing == q.processing && q'.shuttingDown == q.shuttingDown
  }

  lemma {:induction false} ReleasesGain<T>(p: Pipe<T>, es: seq<WaitFor<T>>, now: int)
    requires !p.q.shuttingDown
    ensures Gained(p.q, set i | 0 <= i < |es| :: es[i].data, After(p, Releases(es, now)).q)
  {
    if es != [] {
      var n := |es| - 1;
      ReleasesGain(p, es[..n], now);
      Extend(p, Releases(es[..n], now), Release(es[n].data, now));
      assert (set i | 0 <= i < |es| :: es[i].data) == (set i | 0 <= i < n :: es[..n][i].data) + {es[n].data};
    }
  }

  /** The entries in front of the later ones are those of the due items. */
  lemma DueInFront<T>(es: seq<WaitFor<T>>, known: map<T, int>, n: nat, now: int)
    requires Represents(es, known) && n <= |es| && forall i :: 0 <= i < n ==> es[i].readyAt <= now
    requires Represents(es[n..], Later(known, now))
    ensures (set i | 0 <= i < n :: es[..n][i].data) == Due(known, now)
  {
    forall x | x in Due(known, now)
      ensures exists i :: 0 <= i < n && es[..n][i].data == x
    {
      var k := Listed(es, known, x);
      assert es[..n][k].data == x;
    }
  }

  lemma OneMoreDue<T>(es: seq<WaitFor<T>>, nows: seq<int>, n: nat)
    requires n < |es| && n < |nows|
    ensures DueEntries(es, nows, n + 1)
         == DueEntries(es, nows, n) + if es[n].readyAt <= nows[n] then {es[n].data} else {}
  {
  }

  lemma OneMoreWaits<T>(before: map<T, int>, es: seq<WaitFor<T>>, nows: seq<int>, n: nat, after: map<T, int>)
    requires n < |es| && n < |nows| && WaitsWith(before, es, nows, n, after)
    ensures WaitsWith(before, es, nows, n + 1,
                      if es[n].readyAt > nows[n] then InsertEarliest(after, es[n]) else after)
  {
    var after' := if es[n].readyAt > nows[n] then InsertEarliest(after, es[n]) else after;
    forall x | x in after' && !(x in before && after'[x] == before[x])
      ensures exists i :: 0 <= i < n + 1 && es[i].readyAt > nows[i] && es[i] == WaitFor(x, after'[x])
    {
      if x in after && after'[x] == after[x] {
        var i :| 0 <= i < n && es[i].readyAt > nows[i] && es[i] == WaitFor(x, after[x]);
        assert es[i] == WaitFor(x, after'[x]);
      } else {
        assert es[n] == WaitFor(x, after'[x]);
      }
    }
  }

  /** What shifting the tail of a slice by one and writing e in front of it
      does. */
  lemma ShiftedIn<T>(a: seq<WaitFor<T>>, b: seq<WaitFor<T>>, lo: nat, hi: nat, k: nat, e: WaitFor<T>)
    requires |a| == |b| && lo + k <= hi < |a|
    requires (forall i :: lo <= i < lo + k ==> b[i] == a[i]) && b[lo + k] == e
    requires forall i :: lo + k < i <= hi ==> b[i] == a[i - 1]
    ensures b[lo..hi + 1] == InsertAt(a[lo..hi], k, e)
  {
  }

  /** ... and what shifting it back over entry k does. */
  lemma ShiftedOut<T>(a: seq<WaitFor<T>>, b: seq<WaitFor<T>>, lo: nat, hi: nat, k: nat)
    requires |a| == |b| && lo + k < hi <= |a|
    requires forall i :: lo <= i < lo + k ==> b[i] == a[i]
    requires forall i :: lo + k <= i < hi - 1 ==> b[i] == a[i + 1]
    ensures b[lo..hi - 1] == RemoveAt(a[lo..hi], k)
  {
  }

  /** The slice waitingForAdd, which is buf[lo..hi], and its lookup map
      waitingTimeByEntry. */
  class WaitingSlice<T(==, 0)> {
    var buf: array<WaitFor<T>>
    var lo: nat
    var hi: nat
    var known: map<T, int>
    ghost var entries: seq<WaitFor<T>>

    ghost predicate Aligned()
      reads this, buf
    {
      lo <= hi <= buf.Length && entries == buf[lo..hi]
    }

    ghost predicate Valid()
      reads this, buf
    {
      Aligned() && Represents(entries, known)
    }

    constructor ()
      ensures Valid() && fresh(buf) && entries == [] && known == map[]
    {
      buf := new WaitFor<T>[0];
      lo, hi, known, entries := 0, 0, map[], [];
    }

    /** sort.Search over the slice: the first entry that is due after `t`, or,
        with `orAt`, the first that is due at `t` or after. */
    method Search(t: int, orAt: bool) returns (i: nat)
      requires Aligned() && Sorted(entries)
      ensures i <= |entries|
      ensures forall j :: 0 <= j < i ==> entries[j].readyAt < t || (!orAt && entries[j].readyAt == t)
      ensures forall j :: i <= j < |entries| ==> t < entries[j].readyAt || (orAt && entries[j].readyAt == t)
    {
      i := 0;
      var j: nat := hi - lo;
      while i < j
        invariant i <= j <= hi - lo
        invariant forall k :: 0 <= k < i ==> entries[k].readyAt < t || (!orAt && entries[k].readyAt == t)
        invariant forall k :: j <= k < hi - lo ==> t < entries[k].readyAt || (orAt && entries[k].readyAt == t)
      {
        var h := i + (j - i) / 2;
        var e := buf[lo + h];
        assert e == entries[h];
        if !(e.readyAt > t || (orAt && e.readyAt == t)) {
          i := h + 1;
        } else {
          j := h;
        }
      }
    }

    /** Always finds the entry, also among several of the same deadline. */
    method FindEntryIndex(existingTime: int, data: T) returns (index: nat)
      requires Aligned() && Sorted(entries) && DistinctItems(entries)
      requires WaitFor(data, existingTime) in entries
      ensures index < |entries| && entries[index] == WaitFor(data, existingTime)
    {
      index := Search(existingTime, true);
      ghost var at :| 0 <= at < |entries| && entries[at] == WaitFor(data, existingTime);
      while index < hi - lo
        invariant index <= at
      {
        assert buf[lo + index] == entries[index];
        if buf[lo + index].data == data {
          break;
        }
        index := index + 1;
      }
    }

    /** Take out entry k in place: what follows it moves up by one. */
    method RemoveEntry(k: nat)
      requires Aligned() && k < |entries|
      modifies this`hi, this`entries, buf
      ensures Aligned() && entries == RemoveAt(old(entries), k)
    {
      ghost var before := buf[..];
      forall i | lo + k <= i < hi - 1 {
        buf[i] := buf[i + 1];
      }
      ShiftedOut(before, buf[..], lo, hi, k);
      assert before[lo..hi] == entries && buf[..][lo..hi - 1] == buf[lo..hi - 1];
      hi := hi - 1;
      entries := buf[lo..hi];
    }

    /** append makes room behind the slice, in a bigger array if need be. */
    method MakeRoom()
      requires Aligned()
      modifies this`buf, this`lo, this`hi
      ensures buf == old(buf) || fresh(buf)
      ensures Aligned() && hi < buf.Length
    {
      if hi == buf.Length {
        var bigger := new WaitFor<T>[2 * (hi - lo) + 1];
        forall i | 0 <= i < hi - lo {
          bigger[i] := buf[lo + i];
        }
        buf, lo, hi := bigger, 0, hi - lo;
      }
    }

    /** Grow by one, shift the tail and write the entry. */
    method ShiftIn(k: nat, e: WaitFor<T>)
      requires Aligned() && k <= |entries| && hi < buf.Length
      modifies this`hi, this`entries, buf
      ensures Aligned() && entries == InsertAt(old(entries), k, e)
    {
      ghost var before := buf[..];
      forall i | lo + k < i <= hi {
        buf[i] := buf[i - 1];
      }
      buf[lo + k] := e;
      ShiftedIn(before, buf[..], lo, hi, k, e);
      assert before[lo..hi] == entries && buf[..][lo..hi + 1] == buf[lo..hi + 1];
      hi := hi + 1;
      entries := buf[lo..hi];
    }

    /** Drop the item's entry from the slice, if it has one. */
    method RemoveExisting(x: T)
      requires Valid()
      modifies this`hi, this`entries, buf
      ensures Aligned() && entries == Without(old(entries), x)
    {
      if x in known {
        ghost var at := Listed(entries, known, x);
        var index := FindEntryIndex(known[x], x);
        if index < hi - lo {
          WithoutAt(entries, index);
          RemoveEntry(index);
        }
      } else {
        WithoutAbsent(entries, x);
      }
    }

    /** insert: the slice and the map move together to the earlier deadline. */
    method Insert(e: WaitFor<T>)
      requires Valid()
      modifies this, buf
      ensures buf == old(buf) || fresh(buf)
      ensures Valid() && known == InsertEarliest(old(known), e)
      ensures Inserted(old(entries), old(known), e, entries)
    {
      if e.data in known && known[e.data] < e.readyAt {
        return;
      }
      WithoutRepresents(entries, known, e.data);
      RemoveExisting(e.data);
      var k := Search(e.readyAt, false);
      assert BehindEqual(entries, k, e.readyAt);
      MakeRoom();
      ShiftIn(k, e);
      known := known[e.data := e.readyAt];
      InsertedRefinesEarliest(old(entries), old(known), e, entries);
    }

    /** Forget everything that waits, as the loop does on shutdown. */
    method Clear()
      modifies this
      ensures Valid() && known == map[] && fresh(buf)
    {
      buf := new WaitFor<T>[0];
      lo, hi, known, entries := 0, 0, map[], [];
    }

    /** Leave out the first n entries; the buffer stays as it is. */
    method DropFirst(n: nat)
      requires Aligned() && n <= |entries|
      modifies this`lo, this`entries
      ensures Aligned() && entries == old(entries)[n..]
    {
      lo := lo + n;
      entries := entries[n..];
    }
  }

  class DelayingQueue<T(==, 0)> {
    const inner: WorkQueue<T>
    const slice: WaitingSlice<T>
    var chan: seq<WaitFor<T>>
    var closed: bool

    ghost function Repr(): set<object>
      reads slice
    {
      inner.Repr + {this, slice, slice.buf}
    }

    ghost predicate Valid()
      reads this, slice, inner, Repr()
    {
      && inner.Repr !! {this, slice, slice.buf}
      && inner.Valid()
      && slice.Valid()
      && |chan| <= CHANNEL_CAPACITY
      && (closed ==> inner.shuttingDown)
    }

    ghost function View(): Pipe<T>
      reads this, inner, slice
    {
      Pipe(multiset{}, chan, None, slice.known, inner.State(), closed)
    }

    constructor (named: bool)
      ensures Valid() && fresh(Repr()) && View() == Start()
    {
      inner := new WorkQueue(named);
      slice := new WaitingSlice();
      chan, closed := [], false;
    }

    /** To be called once: closing the channel again would be an error. */
    method ShutDown()
      requires Valid() && !closed
      modifies Repr()
      ensures Valid() && slice.buf == old(slice.buf)
      ensures View() == After(old(View()), [Step.ShutDown, Close])
      ensures inner.shuttingDown && closed && chan == old(chan) && slice.known == old(slice.known)
      ensures inner.dirty == old(inner.dirty) && inner.processing == old(inner.processing)
    {
      Extend(View(), [Step.ShutDown], Close);
      inner.ShutDown();
      closed := true;
    }

    /** AddAfter, when its send does not have to wait for room in the channel. */
    method AddAfter(x: T, duration: int, now: int)
      requires Valid()
      requires inner.shuttingDown || duration <= 0 || |chan| < CHANNEL_CAPACITY
      modifies Repr()
      ensures Valid() && slice.buf == old(slice.buf)
      ensures old(inner.shuttingDown) ==> View() == old(View())
      ensures !old(inner.shuttingDown) ==>
                && Did(old(View()), [Request(CallFor(x, duration, now)), Send(CallFor(x, duration, now))], View())
                && View() == Accepted(old(View()), x, duration, now)
    {
      if inner.shuttingDown {
        return;
      }
      RequestThenSend(View(), CallFor(x, duration, now));
      if duration <= 0 {
        inner.Add(x, now);
        return;
      }
      chan := chan + [WaitFor(x, now + duration)];
    }

    // waitingLoop

    /** The releasing loop of one pass: exactly the items due by `now` go to
        the inner queue, in deadline order, and exactly the later ones stay. */
    method ReleaseReady(now: int) returns (n: nat)
      requires Valid()
      modifies inner.Repr, slice
      ensures Valid() && slice.buf == old(slice.buf) && n <= |old(slice.entries)|
      ensures forall i :: 0 <= i < n ==> old(slice.entries)[i].readyAt <= now
      ensures slice.entries == old(slice.entries)[n..]
      ensures slice.known == Later(old(slice.known), now)
      ensures IsRun(old(View()), Releases(old(slice.entries)[..n], now))
      ensures View() == After(old(View()), Releases(old(slice.entries)[..n], now))
      ensures !old(inner.shuttingDown) ==> Gained(old(inner.State()), Due(old(slice.known), now), inner.State())
    {
      ghost var p, es := View(), slice.entries;
      n := AddReady(now);
      ReleasedMeans(p, es, n, now);
      NothingDue(es[n..], slice.known, now);
      slice.DropFirst(n);
      DueInFront(es, p.waiting, n, now);
      if !p.q.shuttingDown {
        ReleasesGain(p, es[..n], now);
      }
    }

    method AddReady(now: int) returns (n: nat)
      requires inner.Repr !! {this, slice, slice.buf} && inner.Valid() && slice.Aligned()
      modifies inner.Repr, slice`known
      ensures inner.Valid() && inner.shuttingDown == old(inner.shuttingDown)
      ensures slice.Aligned() && n <= |slice.entries| && View() == Released(old(View()), slice.entries, n, now)
      ensures forall i :: 0 <= i < n ==> slice.entries[i].readyAt <= now
      ensures n < |slice.entries| ==> now < slice.entries[n].readyAt
    {
      ghost var p, es := View(), slice.entries;
      n := 0;
      while n < slice.hi - slice.lo
        invariant inner.Valid() && inner.shuttingDown == old(inner.shuttingDown)
        invariant slice.Aligned() && n <= |es| && View() == Released(p, es, n, now)
        invariant forall i :: 0 <= i < n ==> es[i].readyAt <= now
      {
        var e := slice.buf[slice.lo + n];
        assert e == es[n];
        if e.readyAt > now {
          break;
        }
        ReleaseItem(e.data, now);
        n := n + 1;
      }
    }

    /** A due item goes to the inner queue, and its deadline is dropped. */
    method ReleaseItem(x: T, now: int)
      requires inner.Valid() && inner.Repr !! {this, slice, slice.buf}
      modifies inner.Repr, slice`known
      ensures inner.Valid() && View() == Apply(old(View()), Release(x, now))
    {
      inner.Add(x, now);
      slice.known := slice.known - {x};
    }

    /** The loop takes one entry from the channel. */
    method TreatNext(now: int)
      requires Valid() && chan != []
      modifies Repr()
      ensures Valid() && (slice.buf == old(slice.buf) || fresh(slice.buf))
      ensures chan == old(chan)[1..]
      ensures Did(old(View()), [Receive, Treat(now)], View()) && View() == Treated(old(View()), now)
    {
      ReceiveThenTreat(View(), now);
      var e := chan[0];
      chan := chan[1..];
      if e.readyAt > now {
        slice.Insert(e);
      } else {
        inner.Add(e.data, now);
      }
    }

    /** One round of the draining loop. */
    method TreatEntry(ghost p0: Pipe<T>, nows: seq<int>, i: nat)
      requires Valid() && chan != [] && p0.hand.None?
      requires i < |p0.chan| && i < |nows| && DrainedTo(p0, nows, i, View())
      modifies Repr()
      ensures Valid() && (slice.buf == old(slice.buf) || fresh(slice.buf)) && |chan| == |old(chan)| - 1
      ensures DrainedTo(p0, nows, i + 1, View())
    {
      ghost var p := View();
      TreatNext(nows[i]);
      OneMoreDrained(p0, nows, i, p, View());
    }

    /** The inner loop that drains the channel; nows[i] is the clock at the
        i-th entry. */
    method DrainChannel(nows: seq<int>)
      requires Valid() && |nows| >= |chan|
      modifies Repr()
      ensures Valid() && chan == [] && (slice.buf == old(slice.buf) || fresh(slice.buf))
      ensures Did(old(View()), Treats(nows, |old(chan)|), View())
      ensures WaitsWith(old(slice.known), old(chan), nows, |old(chan)|, slice.known)
      ensures !old(inner.shuttingDown) ==>
                Gained(old(inner.State()), DueEntries(old(chan), nows, |old(chan)|), inner.State())
    {
      var i := 0;
      ghost var p0 := View();
      while chan != []
        invariant Valid() && (slice.buf == old(slice.buf) || fresh(slice.buf))
        invariant 0 <= i <= |p0.chan| && DrainedTo(p0, nows, i, View())
        decreases |chan|
      {
        TreatEntry(p0, nows, i);
        i := i + 1;
      }
    }

    /** The part of a pass before its sleep: what is due goes, and the wait is for
        the first of the rest. */
    method ReleaseAndArm(now: int) returns (timer: Option<int>, ghost n: nat)
      requires Valid()
      modifies inner.Repr, slice
      ensures Valid() && slice.buf == old(slice.buf) && n <= |old(slice.entries)|
      ensures Did(old(View()), Releases(old(slice.entries)[..n], now), View())
      ensures slice.known == Later(old(slice.known), now) && TimerFor(slice.known, now, timer)
      ensures !old(inner.shuttingDown) ==> Gained(old(inner.State()), Due(old(slice.known), now), inner.State())
    {
      var released := ReleaseReady(now);
      n := released;
      timer := None;
      if slice.lo < slice.hi {
        timer := Some(slice.buf[slice.lo].readyAt - now);
      }
      FirstIsEarliest(slice.entries, slice.known, now);
    }

    /** One pass of waitingLoop, begun at `now`: on shutdown everything waiting is
        discarded.  Otherwise what is due at `now` goes to the inner queue and
        the loop sleeps no longer than until the earliest deadline that is left;
        and if entries arrive, the i-th is treated at nows[i], and goes to the
        inner queue or waits as its deadline says.  Nothing else becomes
        dirty. */
    method LoopPass(now: int, wake: Wake, nows: seq<int>)
      returns (alive: bool, timer: Option<int>, ghost steps: seq<Step<T>>)
      requires Valid()
      requires wake.EntryArrived? ==> chan != [] && |nows| >= |chan|
      modifies Repr()
      ensures Valid() && Did(old(View()), steps, View())
      ensures alive <==> !old(inner.shuttingDown)
      ensures !alive ==> View() == old(View()).(waiting := map[])
      ensures alive ==> TimerFor(Later(old(slice.known), now), now, timer) && closed == old(closed)
      ensures alive && wake.TimerFired? ==>
                && slice.known == Later(old(slice.known), now) && chan == old(chan)
                && Gained(old(inner.State()), Due(old(slice.known), now), inner.State())
      ensures alive && wake.EntryArrived? ==>
                var n := |old(chan)|;
                && WaitsWith(Later(old(slice.known), now), old(chan), nows, n, slice.known) && chan == []
                && Gained(old(inner.State()),
                          Due(old(slice.known), now) + DueEntries(old(chan), nows, n), inner.State())
    {
      timer := None;
      if inner.shuttingDown {
        steps := [Discard];
        Extend(View(), [], Discard);
        assert [] + [Discard] == [Step<T>.Discard];
        slice.Clear();
        return false, timer, steps;
      }
      ghost var n, es := 0, slice.entries;
      timer, n := ReleaseAndArm(now);
      steps := Releases(es[..n], now);
      alive := true;
      match wake
      case TimerFired =>
      case EntryArrived =>
        ghost var p := View();
        DrainChannel(nows);
        DidBoth(old(View()), steps, p, Treats(nows, |p.chan|), View());
        steps := steps + Treats(nows, |p.chan|);
    }
  }

  /** What a pass of the loop did, as steps of the pipeline. */
  ghost predicate Did<T>(before: Pipe<T>, steps: seq<Step<T>>, after: Pipe<T>) {
    IsRun(before, steps) && after == After(before, steps)
  }

  lemma DidBoth<T>(p0: Pipe<T>, a: seq<Step<T>>, p1: Pipe<T>, b: seq<Step<T>>, p2: Pipe<T>)
    requires Did(p0, a, p1) && Did(p1, b, p2)
    ensures Did(p0, a + b, p2)
  {
    Runs.Concat(Steps<T>(), p0, a, b);
  }

  /** What the treating of the first n entries of the channel achieves. */
  ghost predicate SortedOut<T>(p0: Pipe<T>, nows: seq<int>, n: nat, p: Pipe<T>)
    requires n <= |p0.chan| && n <= |nows|
  {
    && p.chan == p0.chan[n..] && p.hand == p0.hand
    && WaitsWith(p0.waiting, p0.chan, nows, n, p.waiting)
    && (!p0.q.shuttingDown ==> Gained(p0.q, DueEntries(p0.chan, nows, n), p.q))
  }

  /** Treating the first n entries of the channel leads from p0 to p. */
  ghost predicate DrainedTo<T>(p0: Pipe<T>, nows: seq<int>, n: nat, p: Pipe<T>)
    requires n <= |p0.chan| && n <= |nows|
  {
    Did(p0, Treats(nows, n), p) && SortedOut(p0, nows, n, p)
  }

  /** p after the first entry of its channel was treated. */
  function Treated<T(==)>(p: Pipe<T>, now: int): Pipe<T>
    requires p.chan != []
  {
    var e := p.chan[0];
    if e.readyAt > now then p.(chan := p.chan[1..], waiting := InsertEarliest(p.waiting, e))
    else p.(chan := p.chan[1..], q := p.q.Add(e.data))
  }

  lemma OneMoreSortedOut<T>(p0: Pipe<T>, nows: seq<int>, n: nat, p: Pipe<T>)
    requires n < |p0.chan| && n < |nows| && SortedOut(p0, nows, n, p)
    ensures SortedOut(p0, nows, n + 1, Treated(p, nows[n]))
  {
    OneMoreWaits(p0.waiting, p0.chan, nows, n, p.waiting);
    OneMoreDue(p0.chan, nows, n);
  }

  lemma OneMoreDrained<T>(p0: Pipe<T>, nows: seq<int>, n: nat, p: Pipe<T>, p': Pipe<T>)
    requires n < |p0.chan| && n < |nows| && p0.hand.None? && DrainedTo(p0, nows, n, p)
    requires Did(p, [Receive, Treat(nows[n])], p')
    ensures DrainedTo(p0, nows, n + 1, p')
  {
    ReceiveThenTreat(p, nows[n]);
    DidBoth(p0, Treats(nows, n), p, [Receive, Treat(nows[n])], p');
    OneMoreSortedOut(p0, nows, n, p);
  }

  lemma RequestThenSend<T>(p: Pipe<T>, c: Call<T>)
    requires !p.q.shuttingDown && (c.Delayed? ==> |p.chan| < CHANNEL_CAPACITY)
    ensures IsRun(p, [Request(c), Send(c)])
    ensures After(p, [Request(c), Send(c)])
         == match c
            case Immediate(x) => p.(q := p.q.Add(x))
            case Delayed(e) => p.(chan := p.chan + [e])
  {
    var p1 := Apply(p, Request(c));
    Extend(p, [], Request(c));
    assert [] + [Request(c)] == [Request(c)];
    assert After(p, [Request(c)]) == p1;
    Extend(p, [Request(c)], Send(c));
    assert [Request(c)] + [Send(c)] == [Request(c), Send(c)];
    assert p1.inFlight - multiset{c} == p.inFlight;
    match c
    case Immediate(x) => assert Apply(p1, Send(c)) == p.(q := p.q.Add(x));
    case Delayed(e) => assert Apply(p1, Send(c)) == p.(chan := p.chan + [e]);
  }

  lemma ReceiveThenTreat<T>(p: Pipe<T>, now: int)
    requires p.chan != [] && p.hand.None?
    ensures IsRun(p, [Receive, Treat(now)])
    ensures After(p, [Receive, Treat(now)]) == Treated(p, now)
  {
    Extend(p, [], Receive);
    assert [] + [Receive] == [Step<T>.Receive];
    var p1 := Apply(p, Receive);
    assert After(p, [Receive]) == p1 && p1.hand == Some(p.chan[0]);
    Extend(p, [Receive], Treat(now));
    assert [Receive] + [Treat(now)] == [Step<T>.Receive, Treat(now)];
    assert p.hand == None;
    assert After(p, [Receive, Treat(now)]) == Apply(p1, Treat(now));
    assert IsRun(p, [Receive]);
  }

  /** p after the first n of the entries `es` were released at `now`. */
  ghost function Released<T>(p: Pipe<T>, es: seq<WaitFor<T>>, n: nat, now: int): Pipe<T>
    requires n <= |es|
  {
    if n == 0 then p else Apply(Released(p, es, n - 1, now), Release(es[n - 1].data, now))
  }

  lemma {:induction false} ReleasedMeans<T>(p: Pipe<T>, es: seq<WaitFor<T>>, n: nat, now: int)
    requires Represents(es, p.waiting) && n <= |es| && forall i :: 0 <= i < n ==> es[i].readyAt <= now
    ensures ReleasedTo(p, es, n, now, Released(p, es, n, now))
  {
    if n == 0 {
      assert es[0..] == es;
    } else {
      ReleasedMeans(p, es, n - 1, now);
      OneMoreRelease(p, es, n - 1, now, Released(p, es, n - 1, now));
    }
  }

  /** Releasing the first n of the entries `es` at `now` leads from p to v. */
  ghost predicate ReleasedTo<T>(p: Pipe<T>, es: seq<WaitFor<T>>, n: nat, now: int, v: Pipe<T>) {
    && n <= |es|
    && Represents(es[n..], v.waiting)
    && Later(v.waiting, now) == Later(p.waiting, now)
    && (forall i :: 0 <= i < n ==> es[i].readyAt <= now)
    && IsRun(p, Releases(es[..n], now))
    && v == After(p, Releases(es[..n], now))
  }

  lemma OneMoreRelease<T>(p: Pipe<T>, es: seq<WaitFor<T>>, n: nat, now: int, v: Pipe<T>)
    requires ReleasedTo(p, es, n, now, v) && n < |es| && es[n].readyAt <= now
    ensures ReleasedTo(p, es, n + 1, now, Apply(v, Release(es[n].data, now)))
  {
    assert es[n..][0] == es[n] && es[n..][1..] == es[n + 1..];
    DropDueHead(es[n..], v.waiting, now);
    Extend(p, Releases(es[..n], now), Release(es[n].data, now));
    assert es[..n + 1][..n] == es[..n];
    assert Releases(es[..n + 1], now) == Releases(es[..n], now) + [Release(es[n].data, now)];
  }
}
