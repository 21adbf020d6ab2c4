/** What cache.Store.List gives: the stored objects, in whatever order. */
module Listings {
  import opened Prelude

  ghost predicate Lists<K, V>(l: seq<V>, m: map<K, V>) {
    Elements(l) == m.Values
  }

  method ListOf<K(==), V(==)>(m: map<K, V>) returns (l: seq<V>)
    ensures Lists(l, m)
  {
    l := [];
    var keys := m.Keys;
    while keys != {}
      invariant keys <= m.Keys
      invariant Elements(l) == set k | k in m && k !in keys :: m[k]
    {
      var k :| k in keys;
      ghost var before := l;
      l := l + [m[k]];
      keys := keys - {k};
      assert Elements(l) == Elements(before) + {m[k]};
    }
    assert m.Values == set k | k in m :: m[k];
  }

  /** Every store can be listed. */
  lemma {:induction false} SetListing<T>(s: set<T>) returns (l: seq<T>)
    ensures Elements(l) == s
  {
    if s == {} {
      l := [];
    } else {
      var x :| x in s;
      var rest := SetListing(s - {x});
      l := [x] + rest;
      assert Elements(l) == {x} + Elements(rest);
    }
  }

  lemma ListedIffStored<K, V>(l: seq<V>, m: map<K, V>)
    requires Lists(l, m)
    ensures forall k :: k in m ==> m[k] in l
    ensures forall v :: v in l ==> v in m.Values
  {
    forall k | k in m
      ensures m[k] in l
    {
      assert m[k] in m.Values;
      assert m[k] in Elements(l);
    }
    forall v | v in l
      ensures v in m.Values
    {
      assert v in Elements(l);
    }
  }
}
