/** Route stores and the BGP speaker they drive (`pkg/bgp/store.go`).  The
    speaker is the set of announced routes, with calls that take effect or fail
    without effect (section 3.1 of RFC 4271 describes advertising and
    withdrawing routes). */
module RouteStores {
  import opened Routes
  import Runs

  /** A successful call of the speaker. */
  datatype Call = Announce(key: RouteKey) | Withdraw(key: RouteKey)

  /** The keys announced by `calls` and not withdrawn since. */
  function Outstanding(calls: seq<Call>): set<RouteKey> {
    if calls == [] then {}
    else
      var rest := Outstanding(calls[..|calls| - 1]);
      match calls[|calls| - 1]
      case Announce(k) => rest + {k}
      case Withdraw(k) => rest - {k}
  }

  /** No call was pointless: announced only what was not, withdrawn only what
      was. */
  ghost predicate NoneRedundant(calls: seq<Call>) {
    forall i :: 0 <= i < |calls| ==>
      (calls[i].Announce? <==> calls[i].key !in Outstanding(calls[..i]))
  }

  /** A RoutesStore: the cached routes by key, and the calls made for it. */
  datatype Store<R> = Store(routes: map<RouteKey, R>, calls: seq<Call>) {

    /** The cache and the speaker agree. */
    ghost predicate Consistent() {
      routes.Keys == Outstanding(calls) && NoneRedundant(calls)
    }

    /** `ok` is the speaker's answer, if it is asked. */
    function Add(k: RouteKey, r: R, ok: bool): Store<R> {
      if k in routes || !ok then this else Store(routes[k := r], calls + [Announce(k)])
    }

    function Delete(k: RouteKey, ok: bool): Store<R> {
      if k !in routes || !ok then this else Store(routes - {k}, calls + [Withdraw(k)])
    }
  }

  lemma OneMoreCall(calls: seq<Call>, c: Call)
    requires NoneRedundant(calls) && (c.Announce? <==> c.key !in Outstanding(calls))
    ensures NoneRedundant(calls + [c])
    ensures Outstanding(calls + [c])
         == if c.Announce? then Outstanding(calls) + {c.key} else Outstanding(calls) - {c.key}
  {
    var cs := calls + [c];
    assert cs[..|calls|] == calls;
    forall i | 0 <= i < |cs|
      ensures cs[i].Announce? <==> cs[i].key !in Outstanding(cs[..i])
    {
      assert i < |calls| ==> cs[..i] == calls[..i];
    }
  }

  /** Cache and speaker stay in agreement whatever is added or deleted and
      whatever fails. */
  lemma StoreStaysConsistent<R>(s: Store<R>, k: RouteKey, r: R, ok: bool)
    requires s.Consistent()
    ensures s.Add(k, r, ok).Consistent()
    ensures s.Delete(k, ok).Consistent()
  {
    if ok && k !in s.routes {
      OneMoreCall(s.calls, Announce(k));
    } else if ok {
      OneMoreCall(s.calls, Withdraw(k));
    }
  }

  /** The speaker's side: the calls to gobgp. */
  class Server {
    var announced: set<RouteKey>

    constructor ()
      ensures announced == {}
    {
      announced := {};
    }

    method AddPath(k: RouteKey) returns (ok: bool)
      modifies this
      ensures announced == if ok then old(announced) + {k} else old(announced)
    {
      ok := *;
      if ok {
        announced := announced + {k};
      }
    }

    method DeletePath(k: RouteKey) returns (ok: bool)
      modifies this
      ensures announced == if ok then old(announced) - {k} else old(announced)
    {
      ok := *;
      if ok {
        announced := announced - {k};
      }
    }
  }

  class RoutesStore<R> {
    const server: Server
    const keyOf: R -> RouteKey
    var cache: map<RouteKey, R>
    ghost var calls: seq<Call>

    ghost function View(): Store<R>
      reads this
    {
      Store(cache, calls)
    }

    /** Every route is filed under its own key, and the calls made so far
        account for the keys. */
    ghost predicate Valid()
      reads this
    {
      View().Consistent() && forall k :: k in cache ==> keyOf(cache[k]) == k
    }

    constructor (server: Server, keyOf: R -> RouteKey)
      ensures Valid() && View() == Store(map[], []) && this.server == server && this.keyOf == keyOf
    {
      this.server := server;
      this.keyOf := keyOf;
      cache, calls := map[], [];
    }

    method Add(r: R) returns (ok: bool)
      requires Valid()
      modifies this, server
      ensures Valid() && View() == old(View()).Add(keyOf(r), r, ok)
      ensures keyOf(r) in old(cache) ==> ok
      ensures server.announced == old(server.announced) + (if cache == old(cache) then {} else {keyOf(r)})
      ensures ok ==> keyOf(r) in cache
    {
      var k := keyOf(r);
      if k !in cache {
        ok := server.AddPath(k);
        StoreStaysConsistent(View(), k, r, ok);
        if !ok {
          return;
        }
        cache, calls := cache[k := r], calls + [Announce(k)];
        return;
      }
      ok := true;
    }

    method Delete(r: R) returns (ok: bool)
      requires Valid()
      modifies this, server
      ensures Valid() && View() == old(View()).Delete(keyOf(r), ok)
      ensures keyOf(r) !in old(cache) ==> ok
      ensures server.announced == old(server.announced) - (if cache == old(cache) then {} else {keyOf(r)})
      ensures ok ==> keyOf(r) !in cache
    {
      var k := keyOf(r);
      if k in cache {
        ok := server.DeletePath(k);
        StoreStaysConsistent(View(), k, r, ok);
        if !ok {
          return;
        }
        cache, calls := cache - {k}, calls + [Withdraw(k)];
        return;
      }
      ok := true;
    }
  }

  // Several stores on one speaker

  datatype Fleet<R> = Fleet(stores: seq<Store<R>>, announced: set<RouteKey>) {

    function Keys(): set<RouteKey> {
      set i, k | 0 <= i < |stores| && k in stores[i].routes :: k
    }

    ghost predicate Shared(i: nat, k: RouteKey) {
      exists j :: 0 <= j < |stores| && j != i && k in stores[j].routes
    }

    ghost predicate Agrees() {
      && announced == Keys()
      && forall i :: 0 <= i < |stores| ==> stores[i].Consistent()
    }
  }

  datatype Op<R> =
    | Add(i: nat, k: RouteKey, r: R, ok: bool)
    | Delete(i: nat, k: RouteKey, ok: bool)

  /** The hypothesis on the stores' contents: none adds a key that another one
      holds. */
  ghost predicate KeepsDisjoint<R>(f: Fleet<R>, op: Op<R>) {
    op.i < |f.stores| && (op.Add? ==> !f.Shared(op.i, op.k))
  }

  function Perform<R>(f: Fleet<R>, op: Op<R>): Fleet<R> {
    if op.i >= |f.stores| then f
    else
      var s := f.stores[op.i];
      match op
      case Add(i, k, r, ok) =>
        Fleet(f.stores[i := s.Add(k, r, ok)], if k in s.routes || !ok then f.announced else f.announced + {k})
      case Delete(i, k, ok) =>
        Fleet(f.stores[i := s.Delete(k, ok)], if k !in s.routes || !ok then f.announced else f.announced - {k})
  }

  ghost predicate Disjoint<R>(f: Fleet<R>) {
    forall i, k :: 0 <= i < |f.stores| && k in f.stores[i].routes ==> !f.Shared(i, k)
  }

  /** A withdrawal leaves speaker and stores in agreement just when no other
      store holds the same route. */
  lemma WithdrawalAgreesIff<R>(f: Fleet<R>, i: nat, k: RouteKey)
    requires f.Agrees() && i < |f.stores| && k in f.stores[i].routes
    ensures Perform(f, Delete(i, k, true)).announced == Perform(f, Delete(i, k, true)).Keys() <==> !f.Shared(i, k)
  {
    var f' := Perform(f, Delete(i, k, true));
    assert f'.Keys() == if f.Shared(i, k) then f.Keys() else f.Keys() - {k} by {
      forall x
        ensures x in f'.Keys() <==> x in f.Keys() && (x == k ==> f.Shared(i, k))
      {
        if x in f.Keys() && x != k {
          var j :| 0 <= j < |f.stores| && x in f.stores[j].routes;
          assert x in f'.stores[j].routes;
        }
        if f.Shared(i, k) {
          var j :| 0 <= j < |f.stores| && j != i && k in f.stores[j].routes;
          assert k in f'.stores[j].routes;
        }
      }
    }
  }

  lemma AnnouncementAgrees<R>(f: Fleet<R>, i: nat, k: RouteKey, r: R)
    requires f.Agrees() && i < |f.stores| && k !in f.stores[i].routes
    ensures Perform(f, Add(i, k, r, true)).Keys() == f.Keys() + {k}
  {
    var f' := Perform(f, Add(i, k, r, true));
    forall x
      ensures x in f'.Keys() <==> x in f.Keys() || x == k
    {
      if x in f.Keys() {
        var j :| 0 <= j < |f.stores| && x in f.stores[j].routes;
        assert x in f'.stores[j].routes;
      }
      assert k in f'.stores[i].routes;
    }
  }

  lemma OperationAgrees<R>(f: Fleet<R>, op: Op<R>)
    requires f.Agrees() && Disjoint(f) && KeepsDisjoint(f, op)
    ensures Perform(f, op).Agrees() && Disjoint(Perform(f, op))
  {
    var f' := Perform(f, op);
    var s := f.stores[op.i];
    match op
    case Add(i, k, r, ok) =>
      StoreStaysConsistent(s, k, r, ok);
      if f' != f {
        AnnouncementAgrees(f, i, k, r);
      }
    case Delete(i, k, ok) =>
      if k in s.routes {
        StoreStaysConsistent(s, k, s.routes[k], ok);
        if ok {
          WithdrawalAgreesIff(f, i, k);
        }
      }
  }

  ghost function Operations<R>(): Runs.System<Fleet<R>, Op<R>> {
    Runs.System((f, op) => KeepsDisjoint(f, op), (f, op) => Perform(f, op))
  }

  /** As long as the stores' keys stay disjoint, the routes on the air are the
      union of the stores, and each store's keys are what it has announced and
      not withdrawn: after every sequence of additions and deletions, with
      failures anywhere. */
  lemma {:induction false} StoresMatchSpeaker<R>(n: nat, ops: seq<Op<R>>)
    requires Runs.IsRun(Operations<R>(), Fleet(seq(n, _ => Store(map[], [])), {}), ops)
    ensures var f := Runs.After(Operations<R>(), Fleet(seq(n, _ => Store(map[], [])), {}), ops);
            f.Agrees() && Disjoint(f) && |f.stores| == n
  {
    var f0: Fleet<R> := Fleet(seq(n, _ => Store(map[], [])), {});
    if ops == [] {
      assert f0.Keys() == {};
    } else {
      StoresMatchSpeaker<R>(n, ops[..|ops| - 1]);
      OperationAgrees(Runs.After(Operations<R>(), f0, ops[..|ops| - 1]), ops[|ops| - 1]);
    }
  }
}
