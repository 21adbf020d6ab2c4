/** The rate limiters of `pkg/forked/workqueue/default_rate_limiter.go`.
    Durations are nanoseconds.  The back-off is computed in the source in
    64-bit floating point; for a base delay below 2^53 the conversion and the
    scaling by a power of two are exact, so integers are used here, and the
    conversion back to a 64-bit integer is written out. */
module RateLimiters {
  import opened Prelude

  const TWO_TO_THE_53: int := 0x20_0000_0000_0000
  const TWO_TO_THE_63: int := 0x8000_0000_0000_0000

  function Pow2(n: nat): (p: nat)
    ensures p >= 1
  {
    if n == 0 then 1 else 2 * Pow2(n - 1)
  }

  /** Conversion of a float to a 64-bit integer: out of range gives the most
      negative one (the result on amd64; the language leaves it open). */
  function ToDuration(v: int): int {
    if -TWO_TO_THE_63 <= v < TWO_TO_THE_63 then v else -TWO_TO_THE_63
  }

  /** ItemExponentialFailureRateLimiter.When after n failures.  The constant
      MaxInt64 it compares with is 2^63 as a float. */
  function ExponentialDelay(baseDelay: int, maxDelay: int, n: nat): int {
    var backoff := baseDelay * Pow2(n);
    if backoff > TWO_TO_THE_63 then maxDelay
    else
      var calculated := ToDuration(backoff);
      if calculated > maxDelay then maxDelay else calculated
  }

  // Back-off arithmetic

  lemma {:induction false} Pow2Sum(a: nat, b: nat)
    ensures Pow2(a + b) == Pow2(a) * Pow2(b)
  {
    if b > 0 {
      Pow2Sum(a, b - 1);
    }
  }

  lemma {:induction false} Pow2Monotone(a: nat, b: nat)
    requires a <= b
    ensures Pow2(a) <= Pow2(b)
  {
    if a < b {
      Pow2Monotone(a, b - 1);
    }
  }

  lemma Pow2At32()
    ensures Pow2(32) == 0x1_0000_0000
  {
    assert Pow2(8) == 0x100;
    Pow2Sum(8, 8);
    Pow2Sum(16, 16);
  }

  lemma Pow2At21()
    ensures Pow2(21) == 0x20_0000
  {
    assert Pow2(10) == 0x400 && Pow2(11) == 0x800;
    Pow2Sum(10, 11);
  }

  lemma Pow2At53()
    ensures Pow2(53) == TWO_TO_THE_53
  {
    Pow2At32();
    Pow2At21();
    Pow2Sum(32, 21);
  }

  lemma Pow2At63()
    ensures Pow2(63) == TWO_TO_THE_63
  {
    Pow2At53();
    assert Pow2(10) == 1024;
    Pow2Sum(53, 10);
  }

  ghost predicate IsPowerOfTwo(base: int) {
    exists k: nat :: base == Pow2(k)
  }

  /** The one value that slips through the strict test is 2^63 itself. */
  lemma DelayIsCappedBackoffIff(baseDelay: int, maxDelay: int, n: nat)
    requires 0 < baseDelay < TWO_TO_THE_53 && -TWO_TO_THE_63 < maxDelay < TWO_TO_THE_63
    ensures ExponentialDelay(baseDelay, maxDelay, n) == Min(baseDelay * Pow2(n), maxDelay)
       <==> baseDelay * Pow2(n) != TWO_TO_THE_63
  {
  }

  lemma OnlyPowersReach(base: int, n: nat)
    requires 0 < base && base * Pow2(n) == TWO_TO_THE_63
    ensures IsPowerOfTwo(base)
  {
    Pow2At63();
    assert base * Pow2(n) >= Pow2(n);
    if n > 63 {
      Pow2Monotone(64, n);
      assert false;
    }
    Pow2Sum(63 - n, n);
    Cancel(base, Pow2(63 - n), Pow2(n));
    assert base == Pow2(63 - n);
  }

  lemma Cancel(a: int, b: int, c: int)
    requires a * c == b * c && c > 0
    ensures a == b
  {
  }

  lemma PowersReach(base: int)
    requires 0 < base < TWO_TO_THE_53 && IsPowerOfTwo(base)
    ensures exists n: nat :: base * Pow2(n) == TWO_TO_THE_63
  {
    var k: nat :| base == Pow2(k);
    Pow2At53();
    Pow2At63();
    if k >= 53 {
      Pow2Monotone(53, k);
      assert false;
    }
    Pow2Sum(k, 63 - k);
    assert base * Pow2(63 - k) == TWO_TO_THE_63;
  }

  lemma CappedDoubling(baseDelay: int, maxDelay: int, n: nat)
    requires 0 < baseDelay < TWO_TO_THE_53 && -TWO_TO_THE_63 < maxDelay < TWO_TO_THE_63
    requires !IsPowerOfTwo(baseDelay)
    ensures ExponentialDelay(baseDelay, maxDelay, n) == Min(baseDelay * Pow2(n), maxDelay)
  {
    DelayIsCappedBackoffIff(baseDelay, maxDelay, n);
    if baseDelay * Pow2(n) == TWO_TO_THE_63 {
      OnlyPowersReach(baseDelay, n);
    }
  }

  /** The limiter is a capped doubling for every number of failures just when
      its base delay is not a power of two. */
  lemma CappedDoublingIff(baseDelay: int, maxDelay: int)
    requires 0 < baseDelay < TWO_TO_THE_53 && -TWO_TO_THE_63 < maxDelay < TWO_TO_THE_63
    ensures (forall n: nat :: ExponentialDelay(baseDelay, maxDelay, n) == Min(baseDelay * Pow2(n), maxDelay))
       <==> !IsPowerOfTwo(baseDelay)
  {
    if IsPowerOfTwo(baseDelay) {
      PowersReach(baseDelay);
      var n: nat :| baseDelay * Pow2(n) == TWO_TO_THE_63;
      DelayIsCappedBackoffIff(baseDelay, maxDelay, n);
    } else {
      forall n: nat
        ensures ExponentialDelay(baseDelay, maxDelay, n) == Min(baseDelay * Pow2(n), maxDelay)
      {
        CappedDoubling(baseDelay, maxDelay, n);
      }
    }
  }

  /** What goes wrong otherwise: with a base of one nanosecond the 64th failure
      is answered by the most negative duration, not by the cap. */
  lemma PowerOfTwoBaseOverflows(maxDelay: int)
    requires 0 < maxDelay < TWO_TO_THE_63
    ensures ExponentialDelay(1, maxDelay, 63) == -TWO_TO_THE_63
  {
    Pow2At63();
  }

  /** More failures never shorten the delay, and it stays within the cap. */
  lemma DelayMonotone(baseDelay: int, maxDelay: int, m: nat, n: nat)
    requires 0 < baseDelay < TWO_TO_THE_53 && 0 < maxDelay < TWO_TO_THE_63
    requires !IsPowerOfTwo(baseDelay) && m <= n
    ensures 0 < ExponentialDelay(baseDelay, maxDelay, m) <= ExponentialDelay(baseDelay, maxDelay, n) <= maxDelay
  {
    CappedDoubling(baseDelay, maxDelay, m);
    CappedDoubling(baseDelay, maxDelay, n);
    Pow2Monotone(m, n);
    ScaleMonotone(baseDelay, 1, Pow2(m));
    ScaleMonotone(baseDelay, Pow2(m), Pow2(n));
  }

  /** For all numbers of failures, that is so just when the base delay is not a
      power of two. */
  lemma DelayMonotoneIff(baseDelay: int, maxDelay: int)
    requires 0 < baseDelay < TWO_TO_THE_53 && 0 < maxDelay < TWO_TO_THE_63
    ensures (forall m: nat, n: nat :: m <= n ==>
               ExponentialDelay(baseDelay, maxDelay, m) <= ExponentialDelay(baseDelay, maxDelay, n))
       <==> !IsPowerOfTwo(baseDelay)
  {
    if IsPowerOfTwo(baseDelay) {
      PowersReach(baseDelay);
      var n: nat :| baseDelay * Pow2(n) == TWO_TO_THE_63;
      assert ExponentialDelay(baseDelay, maxDelay, n) < 0 < ExponentialDelay(baseDelay, maxDelay, 0);
    } else {
      forall m: nat, n: nat | m <= n
        ensures ExponentialDelay(baseDelay, maxDelay, m) <= ExponentialDelay(baseDelay, maxDelay, n)
      {
        DelayMonotone(baseDelay, maxDelay, m, n);
      }
    }
  }

  lemma ScaleMonotone(a: int, b: int, c: int)
    requires 0 <= a && b <= c
    ensures a * b <= a * c
  {
  }

  const MILLISECOND: int := 1_000_000
  const SECOND: int := 1_000_000_000

  lemma MultiplesOfFive(k: nat)
    ensures Pow2(k) % 5 != 0
    decreases k
  {
  }

  lemma FiveMillisecondsIsNoPowerOfTwo()
    ensures !IsPowerOfTwo(5 * MILLISECOND)
  {
    forall k: nat
      ensures 5 * MILLISECOND != Pow2(k)
    {
      MultiplesOfFive(k);
    }
  }

  lemma Pow2At17()
    ensures Pow2(17) == 131072 && Pow2(18) == 262144
  {
    assert Pow2(8) == 256;
    Pow2Sum(8, 8);
    assert Pow2(17) == 2 * Pow2(16);
    assert Pow2(18) == 2 * Pow2(17);
  }

  lemma EighteenDoublings(n: nat)
    ensures if n >= 18 then Pow2(n) >= 262144 else Pow2(n) <= 131072
  {
    Pow2At17();
    if n >= 18 {
      Pow2Monotone(18, n);
    } else {
      Pow2Monotone(n, 17);
    }
  }

  /** The default controller limiter (5ms, capped at 1000s) reaches its cap
      with the 19th failure in a row and not before. */
  lemma DefaultCapReached(n: nat)
    ensures ExponentialDelay(5 * MILLISECOND, 1000 * SECOND, n) == 1000 * SECOND <==> n >= 18
    ensures n < 18 ==> ExponentialDelay(5 * MILLISECOND, 1000 * SECOND, n) == 5 * MILLISECOND * Pow2(n)
  {
    EighteenDoublings(n);
    DelayIsCappedBackoffIff(5 * MILLISECOND, 1000 * SECOND, n);
    if 5 * MILLISECOND * Pow2(n) == TWO_TO_THE_63 {
      OnlyPowersReach(5 * MILLISECOND, n);
      FiveMillisecondsIsNoPowerOfTwo();
    }
  }

  /** The delays of the first n calls together. */
  function TotalDelay(baseDelay: int, maxDelay: int, n: nat): int {
    if n == 0 then 0 else TotalDelay(baseDelay, maxDelay, n - 1) + ExponentialDelay(baseDelay, maxDelay, n - 1)
  }

  lemma {:induction false} TotalUntilCap(baseDelay: int, maxDelay: int, n: nat)
    requires 0 < baseDelay < TWO_TO_THE_53 && 0 < maxDelay < TWO_TO_THE_63
    requires n > 0 ==> baseDelay * Pow2(n - 1) <= maxDelay
    ensures TotalDelay(baseDelay, maxDelay, n) == baseDelay * (Pow2(n) - 1)
  {
    if n > 0 {
      if n > 1 {
        Doubling(baseDelay, n - 1);
      }
      Doubling(baseDelay, n);
      TotalUntilCap(baseDelay, maxDelay, n - 1);
    }
  }

  lemma Doubling(a: int, n: nat)
    requires a > 0 && n > 0
    ensures a * Pow2(n) == 2 * (a * Pow2(n - 1)) && a * Pow2(n - 1) > 0
    ensures a * (Pow2(n) - 1) == a * (Pow2(n - 1) - 1) + a * Pow2(n - 1)
  {
  }

  // Limiters with state

  datatype Kind =
    | Exponential(baseDelay: int, maxDelay: int)
    | FastSlow(fastDelay: int, slowDelay: int, maxFastAttempts: int)
    | Bucket

  datatype Limiter<T(==)> = Limiter(kind: Kind, failures: map<T, nat>) {

    function NumRequeues(x: T): nat {
      if kind.Bucket? || x !in failures then 0 else failures[x]
    }

    /** The answer of When; `take` is what the token bucket says. */
    function Delay(x: T, take: nat): int {
      match kind
      case Exponential(baseDelay, maxDelay) => ExponentialDelay(baseDelay, maxDelay, NumRequeues(x))
      case FastSlow(fast, slow, maxFast) => if NumRequeues(x) + 1 <= maxFast then fast else slow
      case Bucket => take
    }

    function Asked(x: T): Limiter<T> {
      if kind.Bucket? then this else this.(failures := failures[x := NumRequeues(x) + 1])
    }

    function Forgotten(x: T): Limiter<T> {
      if kind.Bucket? then this else this.(failures := failures - {x})
    }
  }

  class ItemLimiter<T(==)> {
    var state: Limiter<T>

    constructor (kind: Kind)
      ensures state == Limiter(kind, map[])
    {
      state := Limiter(kind, map[]);
    }

    method When(x: T, take: nat) returns (d: int)
      modifies this
      ensures d == old(state).Delay(x, take) && state == old(state).Asked(x)
    {
      if state.kind.Bucket? {
        return take;
      }
      var exp: nat := if x in state.failures then state.failures[x] else 0;
      state := state.(failures := state.failures[x := exp + 1]);
      match state.kind
      case Exponential(baseDelay, maxDelay) => d := ExponentialDelay(baseDelay, maxDelay, exp);
      case FastSlow(fast, slow, maxFast) =>
        if state.failures[x] <= maxFast {
          d := fast;
        } else {
          d := slow;
        }
    }

    method Forget(x: T)
      modifies this
      ensures state == old(state).Forgotten(x)
    {
      if !state.kind.Bucket? {
        state := state.(failures := state.failures - {x});
      }
    }
  }

  ghost predicate IsLeastUpperBound(d: int, answers: seq<int>) {
    && d >= 0
    && (forall i :: 0 <= i < |answers| ==> answers[i] <= d)
    && (d == 0 || d in answers)
  }

  class MaxOfRateLimiter<T(==)> {
    const limiters: seq<ItemLimiter<T>>

    ghost predicate Valid() {
      NoDuplicates(limiters)
    }

    constructor (limiters: seq<ItemLimiter<T>>)
      ensures this.limiters == limiters
    {
      this.limiters := limiters;
    }

    /** What the children would answer. */
    ghost function Answers(x: T, takes: seq<nat>): (r: seq<int>)
      requires |takes| == |limiters|
      reads limiters
      ensures |r| == |limiters| && forall i :: 0 <= i < |limiters| ==> r[i] == limiters[i].state.Delay(x, takes[i])
    {
      seq(|limiters|, i requires 0 <= i < |limiters| reads limiters => limiters[i].state.Delay(x, takes[i]))
    }

    /** Every child is asked exactly once, and the answer is the least upper
        bound of theirs and 0. */
    method When(x: T, takes: seq<nat>) returns (d: int)
      requires Valid() && |takes| == |limiters|
      modifies limiters
      ensures forall i :: 0 <= i < |limiters| ==> limiters[i].state == old(limiters[i].state).Asked(x)
      ensures IsLeastUpperBound(d, old(Answers(x, takes)))
    {
      ghost var states := seq(|limiters|, i requires 0 <= i < |limiters| reads limiters => limiters[i].state);
      ghost var answers := Answers(x, takes);
      d := 0;
      for i := 0 to |limiters|
        invariant forall j :: 0 <= j < i ==> limiters[j].state == states[j].Asked(x)
        invariant forall j :: i <= j < |limiters| ==> limiters[j].state == states[j]
        invariant d >= 0 && forall j :: 0 <= j < i ==> answers[j] <= d
        invariant d == 0 || d in answers
      {
        var curr := limiters[i].When(x, takes[i]);
        assert curr == answers[i];
        if curr > d {
          d := curr;
        }
      }
    }

    method NumRequeues(x: T) returns (n: nat)
      ensures forall i :: 0 <= i < |limiters| ==> limiters[i].state.NumRequeues(x) <= n
      ensures n == 0 || exists i :: 0 <= i < |limiters| && limiters[i].state.NumRequeues(x) == n
    {
      n := 0;
      for i := 0 to |limiters|
        invariant forall j :: 0 <= j < i ==> limiters[j].state.NumRequeues(x) <= n
        invariant n == 0 || exists j :: 0 <= j < i && limiters[j].state.NumRequeues(x) == n
      {
        var curr := limiters[i].state.NumRequeues(x);
        if curr > n {
          n := curr;
        }
      }
    }

    method Forget(x: T)
      requires Valid()
      modifies limiters
      ensures forall i :: 0 <= i < |limiters| ==> limiters[i].state == old(limiters[i].state).Forgotten(x)
    {
      for i := 0 to |limiters|
        invariant forall j :: 0 <= j < i ==> limiters[j].state == old(limiters[j].state).Forgotten(x)
        invariant forall j :: i <= j < |limiters| ==> limiters[j].state == old(limiters[j].state)
      {
        limiters[i].Forget(x);
      }
    }
  }

  // Histories

  datatype Event<T> = When(x: T) | Forget(x: T)

  function AfterEvents<T(==)>(kind: Kind, es: seq<Event<T>>): Limiter<T> {
    if es == [] then Limiter(kind, map[])
    else
      var l := AfterEvents(kind, es[..|es| - 1]);
      match es[|es| - 1]
      case When(x) => l.Asked(x)
      case Forget(x) => l.Forgotten(x)
  }

  /** NumRequeues(x) counts the calls of When(x) since the last Forget(x),
      which is at k-1 if there is one. */
  lemma {:induction false} RequeuesCountWhens<T>(kind: Kind, es: seq<Event<T>>, k: nat, x: T)
    requires !kind.Bucket? && k <= |es|
    requires k > 0 ==> es[k - 1] == Forget(x)
    requires Forget(x) !in es[k..]
    ensures AfterEvents(kind, es).NumRequeues(x) == multiset(es[k..])[When(x)]
    decreases |es|
  {
    KindKept(kind, es);
    if k < |es| {
      var n := |es| - 1;
      assert es[k..] == es[..n][k..] + [es[n]];
      RequeuesCountWhens(kind, es[..n], k, x);
      KindKept(kind, es[..n]);
    } else if k > 0 {
      KindKept(kind, es[..k - 1]);
    }
  }

  /** What When answers after any history: the exponential limiter the back-off
      for the failures since the last Forget, the fast-slow limiter the fast
      delay for the first attempts since then and the slow one afterwards. */
  lemma AnswerFollowsHistory<T>(kind: Kind, es: seq<Event<T>>, k: nat, x: T, take: nat)
    requires !kind.Bucket? && k <= |es|
    requires k > 0 ==> es[k - 1] == Forget(x)
    requires Forget(x) !in es[k..]
    ensures var n := multiset(es[k..])[When(x)];
            AfterEvents(kind, es).Delay(x, take) ==
            match kind
            case Exponential(baseDelay, maxDelay) => ExponentialDelay(baseDelay, maxDelay, n)
            case FastSlow(fast, slow, maxFast) => if n < maxFast then fast else slow
            case Bucket => take
  {
    KindKept(kind, es);
    RequeuesCountWhens(kind, es, k, x);
  }

  lemma {:induction false} KindKept<T>(kind: Kind, es: seq<Event<T>>)
    ensures AfterEvents(kind, es).kind == kind
  {
    if es != [] {
      KindKept(kind, es[..|es| - 1]);
    }
  }
}
