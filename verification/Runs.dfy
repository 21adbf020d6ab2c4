/** Step systems: finite sequences of enabled steps and where they lead. */
module Runs {

  datatype System<!S, !L> = System(enabled: (S, L) -> bool, apply: (S, L) -> S)

  function After<S, L>(sys: System<S, L>, s: S, ls: seq<L>): S {
    if ls == [] then s else sys.apply(After(sys, s, ls[..|ls| - 1]), ls[|ls| - 1])
  }

  predicate IsRun<S, L>(sys: System<S, L>, s: S, ls: seq<L>) {
    ls != [] ==>
      var init := ls[..|ls| - 1];
      IsRun(sys, s, init) && sys.enabled(After(sys, s, init), ls[|ls| - 1])
  }

  lemma Extend<S, L>(sys: System<S, L>, s: S, ls: seq<L>, l: L)
    ensures After(sys, s, ls + [l]) == sys.apply(After(sys, s, ls), l)
    ensures IsRun(sys, s, ls + [l]) <==> IsRun(sys, s, ls) && sys.enabled(After(sys, s, ls), l)
  {
  }

  lemma {:induction false} Prefix<S, L>(sys: System<S, L>, s: S, ls: seq<L>, n: nat)
    requires IsRun(sys, s, ls) && n <= |ls|
    ensures IsRun(sys, s, ls[..n])
  {
    if n < |ls| {
      Prefix(sys, s, ls[..|ls| - 1], n);
      assert ls[..|ls| - 1][..n] == ls[..n];
    } else {
      assert ls[..n] == ls;
    }
  }

  lemma {:induction false} Concat<S, L>(sys: System<S, L>, s: S, a: seq<L>, b: seq<L>)
    requires IsRun(sys, s, a) && IsRun(sys, After(sys, s, a), b)
    ensures IsRun(sys, s, a + b) && After(sys, s, a + b) == After(sys, After(sys, s, a), b)
  {
    if b == [] {
      assert a + b == a;
    } else {
      var init, l := b[..|b| - 1], b[|b| - 1];
      Concat(sys, s, a, init);
      Extend(sys, s, a + init, l);
      assert a + init + [l] == a + b;
    }
  }

  lemma {:induction false} Suffix<S, L>(sys: System<S, L>, s: S, ls: seq<L>, n: nat)
    requires IsRun(sys, s, ls) && n <= |ls|
    ensures IsRun(sys, After(sys, s, ls[..n]), ls[n..])
    ensures After(sys, After(sys, s, ls[..n]), ls[n..]) == After(sys, s, ls)
  {
    if n == |ls| {
      assert ls[..n] == ls;
    } else {
      var init := ls[..|ls| - 1];
      Suffix(sys, s, init, n);
      assert init[..n] == ls[..n] && ls[n..][..|ls| - n - 1] == init[n..];
    }
  }

  lemma Prepend<S, L>(sys: System<S, L>, s: S, l: L, ls: seq<L>)
    requires sys.enabled(s, l) && IsRun(sys, sys.apply(s, l), ls)
    ensures IsRun(sys, s, [l] + ls) && After(sys, s, [l] + ls) == After(sys, sys.apply(s, l), ls)
  {
    assert [] + [l] == [l];
    Extend(sys, s, [], l);
    Concat(sys, s, [l], ls);
  }
}
