/** The sorted list behind the delaying queue
    (`pkg/forked/workqueue/delaying_queue.go`, insert and findEntryIndex), as
    values: what it means for the list and the lookup map to agree, and why
    removing and inserting keeps them so. */
module WaitingList {
  import opened Prelude
  import opened DelayPipeline

  ghost predicate Sorted<T>(es: seq<WaitFor<T>>) {
    forall i, j :: 0 <= i <= j < |es| ==> es[i].readyAt <= es[j].readyAt
  }

  ghost predicate DistinctItems<T>(es: seq<WaitFor<T>>) {
    forall i, j :: 0 <= i < j < |es| ==> es[i].data != es[j].data
  }

  /** The list is in deadline order and holds exactly the pairs of the map. */
  ghost predicate Represents<T>(es: seq<WaitFor<T>>, known: map<T, int>) {
    Sorted(es) && DistinctItems(es) && EntriesKnown(es, known) && |es| == |known|
  }

  ghost predicate EntriesKnown<T>(es: seq<WaitFor<T>>, known: map<T, int>) {
    forall i :: 0 <= i < |es| ==> es[i].data in known && known[es[i].data] == es[i].readyAt
  }

  function RemoveAt<T>(es: seq<WaitFor<T>>, k: nat): seq<WaitFor<T>>
    requires k < |es|
  {
    es[..k] + es[k + 1..]
  }

  function InsertAt<T>(es: seq<WaitFor<T>>, k: nat, e: WaitFor<T>): seq<WaitFor<T>>
    requires k <= |es|
  {
    es[..k] + [e] + es[k..]
  }

  /** Being as many as the keys, the entries leave none out. */
  lemma Listed<T>(es: seq<WaitFor<T>>, known: map<T, int>, x: T) returns (k: nat)
    requires Represents(es, known) && x in known
    ensures k < |es| && es[k] == WaitFor(x, known[x])
  {
    var items := seq(|es|, i requires 0 <= i < |es| => es[i].data);
    ListingLength(items);
    if x !in items {
      assert Elements(items) <= known.Keys - {x};
      SubsetSize(Elements(items), known.Keys - {x});
    }
    k :| k < |es| && items[k] == x;
  }

  lemma SubsetSize<T>(a: set<T>, b: set<T>)
    requires a <= b
    ensures |a| <= |b|
  {
    assert b == a + (b - a);
  }

  /** The list without the entry of x, if there is one. */
  function Without<T(==)>(es: seq<WaitFor<T>>, x: T): seq<WaitFor<T>> {
    if es == [] then []
    else if es[0].data == x then es[1..]
    else [es[0]] + Without(es[1..], x)
  }

  /** The position behind every entry that is due no later than r. */
  ghost predicate BehindEqual<T>(es: seq<WaitFor<T>>, k: nat, r: int) {
    && k <= |es|
    && (forall j :: 0 <= j < k ==> es[j].readyAt <= r)
    && (forall j :: k <= j < |es| ==> r < es[j].readyAt)
  }

  /** `es'` is what insert makes of `es`: an entry that is already due earlier
      stays; otherwise the item's old entry goes and the new one is placed
      behind every entry of the same deadline, all else keeping its order. */
  ghost predicate Inserted<T>(es: seq<WaitFor<T>>, known: map<T, int>, e: WaitFor<T>, es': seq<WaitFor<T>>) {
    if e.data in known && known[e.data] < e.readyAt then es' == es
    else
      exists k: nat :: BehindEqual(Without(es, e.data), k, e.readyAt) && es' == InsertAt(Without(es, e.data), k, e)
  }

  lemma {:induction false} WithoutAt<T>(es: seq<WaitFor<T>>, k: nat)
    requires DistinctItems(es) && k < |es|
    ensures Without(es, es[k].data) == RemoveAt(es, k)
  {
    if k > 0 {
      WithoutAt(es[1..], k - 1);
      assert RemoveAt(es, k) == [es[0]] + RemoveAt(es[1..], k - 1);
    }
  }

  lemma {:induction false} WithoutAbsent<T>(es: seq<WaitFor<T>>, x: T)
    requires forall i :: 0 <= i < |es| ==> es[i].data != x
    ensures Without(es, x) == es
  {
    if es != [] {
      WithoutAbsent(es[1..], x);
    }
  }

  lemma RemoveRepresents<T>(es: seq<WaitFor<T>>, known: map<T, int>, k: nat)
    requires Represents(es, known) && k < |es|
    ensures Represents(RemoveAt(es, k), known - {es[k].data})
  {
  }

  lemma InsertRepresents<T>(es: seq<WaitFor<T>>, known: map<T, int>, k: nat, e: WaitFor<T>)
    requires Represents(es, known) && e.data !in known && BehindEqual(es, k, e.readyAt)
    ensures Represents(InsertAt(es, k, e), known[e.data := e.readyAt])
  {
  }

  lemma WithoutRepresents<T>(es: seq<WaitFor<T>>, known: map<T, int>, x: T)
    requires Represents(es, known)
    ensures Represents(Without(es, x), known - {x})
  {
    if x in known {
      var k := Listed(es, known, x);
      WithoutAt(es, k);
      RemoveRepresents(es, known, k);
    } else {
      WithoutAbsent(es, x);
      assert known - {x} == known;
    }
  }

  /** The fast form refines the simple one: whatever insert makes of a list
      that represents a map represents the map with the earlier deadline. */
  lemma InsertedRefinesEarliest<T>(es: seq<WaitFor<T>>, known: map<T, int>, e: WaitFor<T>, es': seq<WaitFor<T>>)
    requires Represents(es, known) && Inserted(es, known, e, es')
    ensures Represents(es', InsertEarliest(known, e))
  {
    if e.data in known && known[e.data] < e.readyAt {
      assert InsertEarliest(known, e) == known;
    } else {
      var rest := Without(es, e.data);
      var k: nat :| BehindEqual(rest, k, e.readyAt) && es' == InsertAt(rest, k, e);
      WithoutRepresents(es, known, e.data);
      InsertRepresents(rest, known - {e.data}, k, e);
      assert (known - {e.data})[e.data := e.readyAt] == InsertEarliest(known, e);
    }
  }

  /** The part of the map that is not yet due. */
  function Later<T(==)>(known: map<T, int>, now: int): map<T, int> {
    map x | x in known && now < known[x] :: known[x]
  }

  /** The wait that the loop sets up: none if nothing is waiting, and otherwise
      until the earliest deadline, as seen at `now`. */
  ghost predicate TimerFor<T>(known: map<T, int>, now: int, timer: Option<int>) {
    match timer
    case None => known == map[]
    case Some(d) => (exists x :: x in known && known[x] == now + d) && forall x :: x in known ==> now + d <= known[x]
  }

  /** That is the first entry's. */
  lemma FirstIsEarliest<T>(es: seq<WaitFor<T>>, known: map<T, int>, now: int)
    requires Represents(es, known)
    ensures TimerFor(known, now, if es == [] then None else Some(es[0].readyAt - now))
  {
    forall x | x in known
      ensures es != [] && es[0].readyAt <= known[x]
    {
      var k := Listed(es, known, x);
    }
  }

  /** Releasing the first entry, when it is due, keeps list and map together
      and takes nothing from the later part. */
  lemma DropDueHead<T>(es: seq<WaitFor<T>>, known: map<T, int>, now: int)
    requires Represents(es, known) && es != [] && es[0].readyAt <= now
    ensures Represents(es[1..], known - {es[0].data})
    ensures Later(known - {es[0].data}, now) == Later(known, now)
  {
  }

  /** When the first entry is not due, none is. */
  lemma NothingDue<T>(es: seq<WaitFor<T>>, known: map<T, int>, now: int)
    requires Represents(es, known) && (es != [] ==> now < es[0].readyAt)
    ensures Later(known, now) == known
  {
    forall x | x in known
      ensures now < known[x]
    {
      var k := Listed(es, known, x);
    }
  }
}
