/** When a route is on the air, in terms of the fills and the sweeps of a run,
    for any controller (the two loops of every reconcile function of package
    `pkg/controller`). */
module AirTime {
  import opened Routes
  import opened Controllers
  import opened Convergence

  /** How a controller's pass treats a key: `up`, the route store holds it;
      `fills`, a step adds it or finds it there already; `drops`, a step finds
      that its objects are gone and deletes it. */
  datatype Airing<!O, !M> = Airing(
    up: (M, RouteKey) -> bool, fills: (O, M, M, RouteKey) -> bool, drops: (O, M, M, RouteKey) -> bool)

  /** These steps decide what the route store holds. */
  ghost predicate Decides<O(!new), E, M(!new)>(c: Controller<O, E, M>, a: Airing<O, M>) {
    && (forall k :: !a.up(c.idle, k))
    && (forall m, k :: a.up(c.begin(m), k) == a.up(m, k))
    && (forall o, m, m', k :: c.step(o, m, m') ==>
          a.up(m', k) == (a.fills(o, m, m', k) || (a.up(m, k) && !a.drops(o, m, m', k))))
  }

  predicate FilledAt<O, E, M>(c: Controller<O, E, M>, a: Airing<O, M>, ss: seq<Step<E, M>>, i: nat, k: RouteKey)
    requires i < |ss|
  {
    var p := After(c, ss[..i]);
    ss[i].Work? && a.fills(p.o, p.m, ss[i].next, k)
  }

  predicate DroppedAt<O, E, M>(c: Controller<O, E, M>, a: Airing<O, M>, ss: seq<Step<E, M>>, i: nat, k: RouteKey)
    requires i < |ss|
  {
    var p := After(c, ss[..i]);
    ss[i].Work? && a.drops(p.o, p.m, ss[i].next, k)
  }

  /** Step i filled k, and no sweep has found it gone since. */
  ghost predicate UpSince<O, E, M>(c: Controller<O, E, M>, a: Airing<O, M>, ss: seq<Step<E, M>>, i: nat, k: RouteKey)
    requires i < |ss|
  {
    FilledAt(c, a, ss, i, k) && forall j :: i < j < |ss| ==> !DroppedAt(c, a, ss, j, k)
  }

  lemma UpSinceStep<O, E, M>(c: Controller<O, E, M>, a: Airing<O, M>, ss: seq<Step<E, M>>, i: nat, k: RouteKey)
    requires ss != [] && i < |ss| - 1
    ensures var n := |ss| - 1;
            UpSince(c, a, ss, i, k) <==> UpSince(c, a, ss[..n], i, k) && !DroppedAt(c, a, ss, n, k)
  {
    var n := |ss| - 1;
    assert ss[..n][..i] == ss[..i];
    forall j | i < j < n
      ensures DroppedAt(c, a, ss, j, k) <==> DroppedAt(c, a, ss[..n], j, k)
    {
      assert ss[..n][..j] == ss[..j];
    }
  }

  /** A route is in the store just when some pass has filled it and no sweep has
      found its objects gone since, in every run. */
  lemma {:induction false} OnAirIff<O(!new), E, M(!new)>(
    c: Controller<O, E, M>, a: Airing<O, M>, ss: seq<Step<E, M>>, k: RouteKey)
    requires Decides(c, a) && IsRun(c, ss)
    ensures a.up(After(c, ss).m, k) <==> exists i :: 0 <= i < |ss| && UpSince(c, a, ss, i, k)
  {
    if ss != [] {
      var n := |ss| - 1;
      LastStep(c, ss);
      OnAirIff(c, a, ss[..n], k);
      assert UpSince(c, a, ss, n, k) <==> FilledAt(c, a, ss, n, k);
      forall i | 0 <= i < n
        ensures UpSince(c, a, ss, i, k) <==> UpSince(c, a, ss[..n], i, k) && !DroppedAt(c, a, ss, n, k)
      {
        UpSinceStep(c, a, ss, i, k);
      }
    }
  }
}
