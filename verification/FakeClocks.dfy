/** The fake clock of `pkg/forked/clock/glock.go`: one-shot and periodic
    waiters on channels that hold one value. */
module FakeClocks {
  import opened Prelude
  import Runs

  datatype Waiter = Waiter(targetTime: int, stepInterval: int, skipIfBlocked: bool, destChan: nat)

  /** A channel of capacity one; `sent` counts the values ever sent on it. */
  datatype Channel = Channel(buf: Option<int>, sent: nat, oneShot: bool) {
    /** A send that does not have to wait; with the buffer full the value is
        dropped. */
    function Send(t: int): Channel {
      if buf.None? then Channel(Some(t), sent + 1, oneShot) else this
    }
  }

  /** The first target beyond t in steps of the interval. */
  function NextTarget(targetTime: int, stepInterval: int, t: int): int
    requires stepInterval > 0
  {
    if targetTime > t then targetTime else targetTime + ((t - targetTime) / stepInterval + 1) * stepInterval
  }

  /** What becomes of the waiters when the time is set to t. */
  function Remaining(ws: seq<Waiter>, t: int): seq<Waiter> {
    if ws == [] then []
    else
      var w := ws[|ws| - 1];
      Remaining(ws[..|ws| - 1], t) +
      if w.targetTime > t then [w]
      else if w.stepInterval > 0 then [w.(targetTime := NextTarget(w.targetTime, w.stepInterval, t))]
      else []
  }

  /** What is sent to the channels. */
  function Deliver(ws: seq<Waiter>, t: int, chans: seq<Channel>): (r: seq<Channel>)
    ensures |r| == |chans|
  {
    if ws == [] then chans
    else
      var w, cs := ws[|ws| - 1], Deliver(ws[..|ws| - 1], t, chans);
      if w.targetTime > t || w.destChan >= |cs| then cs
      else cs[w.destChan := cs[w.destChan].Send(t)]
  }

  datatype Clock = Clock(time: int, waiters: seq<Waiter>, chans: seq<Channel>) {
    function After(d: int): Clock {
      Clock(time, waiters + [Waiter(time + d, 0, false, |chans|)], chans + [Channel(None, 0, true)])
    }

    function Tick(d: int): Clock {
      Clock(time, waiters + [Waiter(time + d, d, true, |chans|)], chans + [Channel(None, 0, false)])
    }

    function SetTime(t: int): Clock {
      Clock(t, Remaining(waiters, t), Deliver(waiters, t, chans))
    }

    /** Somebody receives from channel c, if it holds a value. */
    function Receive(c: nat): Clock {
      if c < |chans| then this.(chans := chans[c := chans[c].(buf := None)]) else this
    }

    /** Each waiter has its own channel; a one-shot waiter's has never been
        used; and no one-shot channel ever got more than one value. */
    ghost predicate Valid() {
      && (forall i :: 0 <= i < |waiters| ==> waiters[i].destChan < |chans|)
      && OwnChannels(waiters)
      && (forall i :: 0 <= i < |waiters| && !waiters[i].skipIfBlocked ==>
            waiters[i].stepInterval <= 0 && chans[waiters[i].destChan] == Channel(None, 0, true))
      && (forall i :: 0 <= i < |waiters| && waiters[i].skipIfBlocked ==> !chans[waiters[i].destChan].oneShot)
      && (forall c :: 0 <= c < |chans| && chans[c].oneShot ==> chans[c].sent <= 1)
    }
  }

  ghost predicate OwnChannels(ws: seq<Waiter>) {
    forall i, j :: 0 <= i < j < |ws| ==> ws[i].destChan != ws[j].destChan
  }

  // Targets

  lemma TargetBounds(targetTime: int, stepInterval: int, t: int, k: nat)
    requires stepInterval > 0 && targetTime <= t
    requires t < targetTime + k * stepInterval <= t + stepInterval
    ensures NextTarget(targetTime, stepInterval, t) == targetTime + k * stepInterval
  {
    var q, r := (t - targetTime) / stepInterval, (t - targetTime) % stepInterval;
    assert t - targetTime == q * stepInterval + r;
    assert (q + 2) * stepInterval == q * stepInterval + 2 * stepInterval;
    SmallerFactor(q, k, stepInterval);
    SmallerFactor(k, q + 2, stepInterval);
    assert k == q + 1;
  }

  lemma SmallerFactor(a: int, b: int, c: int)
    requires c > 0 && a * c < b * c
    ensures a < b
  {
    assert (a - b) * c < 0;
  }

  /** A ticker's new target is the least of its later targets beyond t. */
  lemma NextTargetIsLeast(targetTime: int, stepInterval: int, t: int, k: nat)
    requires stepInterval > 0 && targetTime <= t
    ensures t < NextTarget(targetTime, stepInterval, t) <= t + stepInterval
    ensures t < targetTime + k * stepInterval ==>
              NextTarget(targetTime, stepInterval, t) <= targetTime + k * stepInterval
    ensures exists j: nat :: NextTarget(targetTime, stepInterval, t) == targetTime + j * stepInterval
  {
    var q := (t - targetTime) / stepInterval;
    Quotient(t - targetTime, stepInterval);
    assert NextTarget(targetTime, stepInterval, t) == targetTime + (q + 1) * stepInterval;
    if k <= q {
      GreaterFactor(k, q, stepInterval);
    } else {
      GreaterFactor(q + 1, k, stepInterval);
    }
  }

  lemma Quotient(d: nat, c: int)
    requires c > 0
    ensures (d / c) * c <= d < (d / c + 1) * c <= d + c
  {
    assert (d / c + 1) * c == (d / c) * c + c;
  }

  lemma GreaterFactor(a: int, b: int, c: int)
    requires a <= b && c > 0
    ensures a * c <= b * c
  {
  }

  /** After any change of time every waiter that is left waits for later. */
  lemma {:induction false} RemainingAreLater(ws: seq<Waiter>, t: int)
    ensures forall i :: 0 <= i < |Remaining(ws, t)| ==> Remaining(ws, t)[i].targetTime > t
  {
    if ws != [] {
      var w := ws[|ws| - 1];
      RemainingAreLater(ws[..|ws| - 1], t);
      if w.targetTime <= t && w.stepInterval > 0 {
        NextTargetIsLeast(w.targetTime, w.stepInterval, t, 0);
      }
    }
  }

  /** Nobody is invented: what remains are waiters not yet due and tickers, each
      as it was but for the target. */
  lemma {:induction false} RemainingComesFrom(ws: seq<Waiter>, t: int, i: nat)
    requires i < |Remaining(ws, t)|
    ensures exists j :: 0 <= j < |ws| && RemainsAs(ws[j], t, Remaining(ws, t)[i])
  {
    var n := |ws| - 1;
    var before := Remaining(ws[..n], t);
    if i < |before| {
      RemainingComesFrom(ws[..n], t, i);
      var j :| 0 <= j < n && RemainsAs(ws[..n][j], t, before[i]);
      assert RemainsAs(ws[j], t, Remaining(ws, t)[i]);
    } else {
      assert RemainsAs(ws[n], t, Remaining(ws, t)[i]);
    }
  }

  /** Nobody is forgotten: every waiter not yet due and every ticker remains,
      right behind those that remain of the waiters before it. */
  lemma {:induction false} NobodyForgotten(ws: seq<Waiter>, t: int, j: nat)
    requires j < |ws| && (ws[j].targetTime > t || ws[j].stepInterval > 0)
    ensures var i := |Remaining(ws[..j], t)|;
            i < |Remaining(ws, t)| && RemainsAs(ws[j], t, Remaining(ws, t)[i])
  {
    var n := |ws| - 1;
    if j < n {
      assert ws[..n][..j] == ws[..j];
      NobodyForgotten(ws[..n], t, j);
    }
  }

  ghost predicate RemainsAs(w: Waiter, t: int, w': Waiter) {
    if w.targetTime > t then w' == w
    else w.stepInterval > 0 && w' == w.(targetTime := NextTarget(w.targetTime, w.stepInterval, t))
  }

  // Channels

  /** With channels of their own, each channel gets what its waiter is due. */
  lemma {:induction false} DeliverAt(ws: seq<Waiter>, t: int, chans: seq<Channel>, c: nat)
    requires OwnChannels(ws) && c < |chans|
    ensures forall i :: 0 <= i < |ws| && ws[i].destChan == c && ws[i].targetTime <= t ==>
              Deliver(ws, t, chans)[c] ==
              if chans[c].buf.None? then Channel(Some(t), chans[c].sent + 1, chans[c].oneShot) else chans[c]
    ensures (forall i :: 0 <= i < |ws| && ws[i].targetTime <= t ==> ws[i].destChan != c) ==>
              Deliver(ws, t, chans)[c] == chans[c]
  {
    if ws != [] {
      var n := |ws| - 1;
      DeliverAt(ws[..n], t, chans, c);
      if ws[n].destChan == c {
        assert forall i :: 0 <= i < n ==> ws[..n][i].destChan != c;
      }
    }
  }

  lemma {:induction false} RemainingOwnChannels(ws: seq<Waiter>, t: int)
    requires OwnChannels(ws)
    ensures OwnChannels(Remaining(ws, t))
  {
    if ws != [] {
      var n := |ws| - 1;
      var before := Remaining(ws[..n], t);
      RemainingOwnChannels(ws[..n], t);
      forall i | 0 <= i < |before|
        ensures before[i].destChan != ws[n].destChan
      {
        RemainingComesFrom(ws[..n], t, i);
      }
    }
  }

  /** A channel got by After(d) receives the time set if that is at least d
      later, and its waiter is gone then; otherwise it goes on waiting. */
  lemma AfterFiresIff(k: Clock, d: int, t: int)
    requires k.Valid()
    ensures var k' := k.After(d).SetTime(t);
            if t >= k.time + d then
              k'.chans[|k.chans|] == Channel(Some(t), 1, true) && k'.waiters == Remaining(k.waiters, t)
            else
              k'.chans[|k.chans|] == Channel(None, 0, true) &&
              k'.waiters == Remaining(k.waiters, t) + [Waiter(k.time + d, 0, false, |k.chans|)]
  {
    var k1 := k.After(d);
    DeliverAt(k1.waiters, t, k1.chans, |k.chans|);
    assert k1.waiters[..|k.waiters|] == k.waiters;
    assert k1.waiters[|k.waiters|].destChan == |k.chans|;
  }

  /** A channel got by Tick(d), d > 0, receives the time set if that is at least
      d later; in any case the ticker goes on, for its next target. */
  lemma TickFiresAndStays(k: Clock, d: int, t: int)
    requires k.Valid() && d > 0
    ensures var k' := k.Tick(d).SetTime(t);
            && k'.chans[|k.chans|].buf == (if t >= k.time + d then Some(t) else None)
            && k'.waiters == Remaining(k.waiters, t) + [Waiter(NextTarget(k.time + d, d, t), d, true, |k.chans|)]
  {
    var k1 := k.Tick(d);
    DeliverAt(k1.waiters, t, k1.chans, |k.chans|);
    assert k1.waiters[..|k.waiters|] == k.waiters;
    assert k1.waiters[|k.waiters|].destChan == |k.chans|;
  }

  lemma ChannelAfterSetTime(k: Clock, t: int, c: nat)
    requires k.Valid() && c < |k.chans|
    ensures var ch := k.SetTime(t).chans[c];
            && ch.oneShot == k.chans[c].oneShot
            && (ch.oneShot ==> ch.sent <= 1)
  {
    DeliverAt(k.waiters, t, k.chans, c);
    if i :| 0 <= i < |k.waiters| && k.waiters[i].destChan == c && k.waiters[i].targetTime <= t {
      assert k.waiters[i].skipIfBlocked || k.chans[c] == Channel(None, 0, true);
    }
  }

  lemma WaiterAfterSetTime(k: Clock, t: int, i: nat)
    requires k.Valid() && i < |Remaining(k.waiters, t)|
    ensures var w := Remaining(k.waiters, t)[i];
            && w.destChan < |k.chans|
            && (w.skipIfBlocked ==> !k.chans[w.destChan].oneShot)
            && (!w.skipIfBlocked ==> w.stepInterval <= 0 && k.SetTime(t).chans[w.destChan] == Channel(None, 0, true))
  {
    RemainingComesFrom(k.waiters, t, i);
    var w := Remaining(k.waiters, t)[i];
    var j :| 0 <= j < |k.waiters| && RemainsAs(k.waiters[j], t, w);
    assert w.destChan == k.waiters[j].destChan;
    if !w.skipIfBlocked {
      DeliverAt(k.waiters, t, k.chans, w.destChan);
      assert forall l :: 0 <= l < |k.waiters| && k.waiters[l].targetTime <= t ==> k.waiters[l].destChan != w.destChan;
    }
  }

  lemma SetTimeKeepsValid(k: Clock, t: int)
    requires k.Valid()
    ensures k.SetTime(t).Valid()
  {
    var k' := k.SetTime(t);
    RemainingOwnChannels(k.waiters, t);
    forall c | 0 <= c < |k'.chans|
      ensures k'.chans[c].oneShot == k.chans[c].oneShot && (k'.chans[c].oneShot ==> k'.chans[c].sent <= 1)
    {
      ChannelAfterSetTime(k, t, c);
    }
    forall i | 0 <= i < |k'.waiters|
      ensures k'.waiters[i].destChan < |k'.chans|
      ensures k'.waiters[i].skipIfBlocked ==> !k'.chans[k'.waiters[i].destChan].oneShot
      ensures !k'.waiters[i].skipIfBlocked ==>
                k'.waiters[i].stepInterval <= 0 && k'.chans[k'.waiters[i].destChan] == Channel(None, 0, true)
    {
      WaiterAfterSetTime(k, t, i);
    }
  }

  // Runs

  datatype Use = After(d: int) | Tick(d: int) | SetTime(t: int) | Step(d: int) | Receive(c: nat)

  function Apply(k: Clock, u: Use): Clock {
    match u
    case After(d) => k.After(d)
    case Tick(d) => k.Tick(d)
    case SetTime(t) => k.SetTime(t)
    case Step(d) => k.SetTime(k.time + d)
    case Receive(c) => k.Receive(c)
  }

  function Uses(): Runs.System<Clock, Use> {
    Runs.System((k, u) => true, (k, u) => Apply(k, u))
  }

  lemma UseKeepsValid(k: Clock, u: Use)
    requires k.Valid()
    ensures Apply(k, u).Valid()
  {
    match u
    case SetTime(t) => SetTimeKeepsValid(k, t);
    case Step(d) => SetTimeKeepsValid(k, k.time + d);
    case _ =>
  }

  /** Over the whole life of a clock, a channel handed out by After gets at most
      one value, whenever it is read, and the channel of a one-shot waiter
      still waiting is empty: its blocking send will not block. */
  lemma {:induction false} OneShotGetsOneValue(start: int, us: seq<Use>)
    ensures var k := Runs.After(Uses(), Clock(start, [], []), us);
            && k.Valid()
            && (forall c :: 0 <= c < |k.chans| && k.chans[c].oneShot ==> k.chans[c].sent <= 1)
            && (forall i :: 0 <= i < |k.waiters| && !k.waiters[i].skipIfBlocked ==>
                  k.waiters[i].destChan < |k.chans| && k.chans[k.waiters[i].destChan].buf.None?)
  {
    if us != [] {
      OneShotGetsOneValue(start, us[..|us| - 1]);
      UseKeepsValid(Runs.After(Uses(), Clock(start, [], []), us[..|us| - 1]), us[|us| - 1]);
    }
  }

  // What the clock says, and what After promises

  /** The clock after the uses `us` from the start. */
  function Run(start: int, us: seq<Use>): Clock {
    Runs.After(Uses(), Clock(start, [], []), us)
  }

  /** The durations of the Steps, together. */
  function Stepped(us: seq<Use>): int {
    if us == [] then 0
    else Stepped(us[..|us| - 1]) + if us[|us| - 1].Step? then us[|us| - 1].d else 0
  }

  /** The clock says what it was last set to, at n - 1 if ever, plus the Steps
      since. */
  lemma {:induction false} TimeIsLastSet(start: int, us: seq<Use>, n: nat)
    requires n <= |us| && (n > 0 ==> us[n - 1].SetTime?)
    requires forall i :: n <= i < |us| ==> !us[i].SetTime?
    ensures Run(start, us).time == (if n == 0 then start else us[n - 1].t) + Stepped(us[n..])
    decreases |us|
  {
    if n < |us| {
      var init := us[..|us| - 1];
      assert us[n..][..|us| - n - 1] == init[n..];
      TimeIsLastSet(start, init, n);
    }
  }

  /** The channel of a one-shot waiter for `target`: it is still empty, and so is
      its waiter there; or it got a value, and the waiter is gone. */
  ghost predicate Waits(k: Clock, c: nat, target: int) {
    Waiter(target, 0, false, c) in k.waiters
  }

  ghost predicate Fired(k: Clock, c: nat) {
    && c < |k.chans| && k.chans[c].oneShot && k.chans[c].sent == 1
    && forall i :: 0 <= i < |k.waiters| ==> k.waiters[i].destChan != c
  }

  /** The use sets the time to `target` or later. */
  predicate Reaches(k: Clock, u: Use, target: int) {
    (u.SetTime? && target <= u.t) || (u.Step? && target <= k.time + u.d)
  }

  lemma SettingFires(k: Clock, t: int, c: nat, target: int)
    requires k.Valid() && Waits(k, c, target)
    ensures var k' := k.SetTime(t);
            if target <= t then Fired(k', c) && k'.chans[c].buf == Some(t) else Waits(k', c, target)
  {
    var j :| 0 <= j < |k.waiters| && k.waiters[j] == Waiter(target, 0, false, c);
    DeliverAt(k.waiters, t, k.chans, c);
    if target <= t {
      forall i | 0 <= i < |Remaining(k.waiters, t)|
        ensures Remaining(k.waiters, t)[i].destChan != c
      {
        RemainingComesFrom(k.waiters, t, i);
        var l :| 0 <= l < |k.waiters| && RemainsAs(k.waiters[l], t, Remaining(k.waiters, t)[i]);
        assert l != j;
      }
    } else {
      NobodyForgotten(k.waiters, t, j);
    }
  }

  lemma SettingKeepsFired(k: Clock, t: int, c: nat)
    requires k.Valid() && Fired(k, c)
    ensures Fired(k.SetTime(t), c)
  {
    DeliverAt(k.waiters, t, k.chans, c);
    forall i | 0 <= i < |Remaining(k.waiters, t)|
      ensures Remaining(k.waiters, t)[i].destChan != c
    {
      RemainingComesFrom(k.waiters, t, i);
    }
  }

  lemma UseFires(k: Clock, u: Use, c: nat, target: int)
    requires k.Valid()
    ensures Waits(k, c, target) ==>
              if Reaches(k, u, target) then Fired(Apply(k, u), c) else Waits(Apply(k, u), c, target)
    ensures Fired(k, c) ==> Fired(Apply(k, u), c)
  {
    var t := if u.SetTime? then u.t else if u.Step? then k.time + u.d else 0;
    if u.SetTime? || u.Step? {
      if Waits(k, c, target) {
        SettingFires(k, t, c, target);
      }
      if Fired(k, c) {
        SettingKeepsFired(k, t, c);
      }
    } else if Waits(k, c, target) {
      var j :| 0 <= j < |k.waiters| && k.waiters[j] == Waiter(target, 0, false, c);
      assert Apply(k, u).waiters[j] == k.waiters[j];
    }
  }

  /** After step i, some use set the time to `target` or later. */
  ghost predicate ReachedSince(start: int, us: seq<Use>, i: nat, target: int) {
    exists j :: i < j < |us| && Reaches(Run(start, us[..j]), us[j], target)
  }

  lemma ReachedStep(start: int, us: seq<Use>, i: nat, target: int)
    requires i < |us| - 1
    ensures var n := |us| - 1;
            ReachedSince(start, us, i, target) <==>
            ReachedSince(start, us[..n], i, target) || Reaches(Run(start, us[..n]), us[n], target)
  {
    var n := |us| - 1;
    forall j | i < j < n
      ensures us[..n][..j] == us[..j] && us[..n][j] == us[j]
    {
    }
    if j :| i < j < n && Reaches(Run(start, us[..n][..j]), us[..n][j], target) {
      assert Reaches(Run(start, us[..j]), us[j], target);
    }
    if j :| i < j < |us| && Reaches(Run(start, us[..j]), us[j], target) {
      assert j < n ==> Reaches(Run(start, us[..n][..j]), us[..n][j], target);
    }
  }

  lemma RunStepFires(start: int, us: seq<Use>, c: nat, target: int)
    requires us != []
    ensures var k, u := Run(start, us[..|us| - 1]), us[|us| - 1];
            && (Waits(k, c, target) ==>
                  if Reaches(k, u, target) then Fired(Run(start, us), c) else Waits(Run(start, us), c, target))
            && (Fired(k, c) ==> Fired(Run(start, us), c))
  {
    OneShotGetsOneValue(start, us[..|us| - 1]);
    UseFires(Run(start, us[..|us| - 1]), us[|us| - 1], c, target);
  }

  lemma {:induction false} FiresOrWaits(start: int, us: seq<Use>, i: nat, c: nat, target: int)
    requires i < |us| && Waits(Run(start, us[..i + 1]), c, target)
    ensures if ReachedSince(start, us, i, target) then Fired(Run(start, us), c) else Waits(Run(start, us), c, target)
    decreases |us|
  {
    var n := |us| - 1;
    if i == n {
      assert us[..i + 1] == us;
    } else {
      assert us[..n][..i + 1] == us[..i + 1];
      FiresOrWaits(start, us[..n], i, c, target);
      ReachedStep(start, us, i, target);
      RunStepFires(start, us, c, target);
    }
  }

  lemma AfterWaits(start: int, us: seq<Use>, i: nat)
    requires i < |us| && us[i].After?
    ensures var k := Run(start, us[..i]); Waits(Run(start, us[..i + 1]), |k.chans|, k.time + us[i].d)
  {
    var k := Run(start, us[..i]);
    assert us[..i + 1][..i] == us[..i];
    assert Run(start, us[..i + 1]).waiters[|k.waiters|] == Waiter(k.time + us[i].d, 0, false, |k.chans|);
  }

  /** What After promises, over whole runs: the channel handed out at step i has
      got its value, once, just when the time was later set to at least d beyond
      what it was then; until then it is empty. */
  lemma AfterDeliversIff(start: int, us: seq<Use>, i: nat)
    requires i < |us| && us[i].After?
    ensures var k0, k := Run(start, us[..i]), Run(start, us);
            var c := |k0.chans|;
            && c < |k.chans|
            && k.chans[c].sent == (if ReachedSince(start, us, i, k0.time + us[i].d) then 1 else 0)
            && (k.chans[c].sent == 0 ==> k.chans[c].buf.None?)
  {
    var k0 := Run(start, us[..i]);
    AfterWaits(start, us, i);
    FiresOrWaits(start, us, i, |k0.chans|, k0.time + us[i].d);
    OneShotGetsOneValue(start, us);
  }

  class FakeClock {
    var time: int
    var waiters: seq<Waiter>
    var chans: seq<Channel>

    ghost function View(): Clock
      reads this
    {
      Clock(time, waiters, chans)
    }

    constructor (t: int)
      ensures View() == Clock(t, [], []) && View().Valid()
    {
      time, waiters, chans := t, [], [];
    }

    method After(d: int) returns (ch: nat)
      requires View().Valid()
      modifies this
      ensures View() == old(View()).After(d) && View().Valid() && ch == |old(chans)|
    {
      ch := |chans|;
      chans := chans + [Channel(None, 0, true)];
      waiters := waiters + [Waiter(time + d, 0, false, ch)];
    }

    method Tick(d: int) returns (ch: nat)
      requires View().Valid()
      modifies this
      ensures View() == old(View()).Tick(d) && View().Valid() && ch == |old(chans)|
    {
      ch := |chans|;
      chans := chans + [Channel(None, 0, false)];
      waiters := waiters + [Waiter(time + d, d, true, ch)];
    }

    method Step(d: int)
      requires View().Valid()
      modifies this
      ensures View() == old(View()).SetTime(old(time) + d) && View().Valid() && time == old(time) + d
    {
      SetTimeLocked(time + d);
    }

    method SetTimeLocked(t: int)
      requires View().Valid()
      modifies this
      ensures View() == old(View()).SetTime(t) && View().Valid() && time == t
      ensures forall i :: 0 <= i < |waiters| ==> waiters[i].targetTime > t
    {
      SetTimeKeepsValid(View(), t);
      RemainingAreLater(waiters, t);
      ghost var before := chans;
      time := t;
      var newWaiters := [];
      for i := 0 to |waiters|
        invariant time == t && waiters == old(waiters)
        invariant newWaiters == Remaining(waiters[..i], t)
        invariant chans == Deliver(waiters[..i], t, before)
      {
        var w := waiters[i];
        assert waiters[..i + 1][..i] == waiters[..i];
        if w.targetTime <= t {
          Notify(old(View()), i, t);
          if w.stepInterval > 0 {
            var target := Rearm(w.targetTime, w.stepInterval, t);
            newWaiters := newWaiters + [w.(targetTime := target)];
          }
        } else {
          newWaiters := newWaiters + [w];
        }
      }
      assert waiters[..|waiters|] == waiters;
      waiters := newWaiters;
    }

    /** The send to the i-th waiter, which is due.  When it may not be skipped,
        it finds the buffer empty and so does not block. */
    method Notify(ghost k: Clock, i: nat, t: int)
      requires k.Valid() && waiters == k.waiters && i < |waiters| && waiters[i].targetTime <= t
      requires chans == Deliver(waiters[..i], t, k.chans)
      modifies this`chans
      ensures chans == Deliver(waiters[..i + 1], t, k.chans)
    {
      var w := waiters[i];
      assert waiters[..i + 1][..i] == waiters[..i];
      if w.skipIfBlocked {
        if chans[w.destChan].buf.None? {
          chans := chans[w.destChan := chans[w.destChan].Send(t)];
        } else {
          assert chans == chans[w.destChan := chans[w.destChan].Send(t)];
        }
      } else {
        DeliverAt(waiters[..i], t, k.chans, w.destChan);
        assert chans[w.destChan].buf.None?;
        chans := chans[w.destChan := chans[w.destChan].Send(t)];
      }
    }
  }

  /** The re-arming loop ends, at the first target beyond t. */
  method Rearm(targetTime: int, stepInterval: int, t: int) returns (target: int)
    requires stepInterval > 0 && targetTime <= t
    ensures target == NextTarget(targetTime, stepInterval, t)
  {
    target := targetTime;
    ghost var k: nat := 0;
    while target <= t
      invariant target == targetTime + k * stepInterval
      invariant target <= t + stepInterval
      decreases t - target
    {
      target := target + stepInterval;
      k := k + 1;
    }
    TargetBounds(targetTime, stepInterval, t, k);
  }
}
