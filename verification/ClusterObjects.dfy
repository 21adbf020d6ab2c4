/** The Kubernetes objects that kube-parrot watches, as far as it looks at
    them, and what each event means to the store that keeps them
    (package `pkg/controller`). */
module ClusterObjects {
  import opened Prelude
  import opened Routes

  /** Namespace and name: the key of the object stores. */
  datatype ObjectKey = ObjectKey(namespace: string, name: string)

  datatype Pod = Pod(key: ObjectKey, hostIP: IPv4, ready: bool)

  datatype Service = Service(key: ObjectKey, externalIPs: seq<IPv4>)

  /** addresses[i] is the number of ready addresses of the i-th subset. */
  datatype Endpoints = Endpoints(key: ObjectKey, addresses: seq<nat>)

  datatype Subnet = Subnet(ip: IPv4, length: PrefixLength)

  /** podSubnet is the annotation parrot.sap.cc/podsubnet. */
  datatype Node = Node(key: ObjectKey, podSubnet: Option<Subnet>, internalIP: IPv4)

  /** Adding and updating are handled alike. */
  datatype Event<O> = Upsert(obj: O) | Remove(obj: O)

  const SYSTEM_NAMESPACE := "kube-system"
  const PROXY_PREFIX := "kube-proxy"
  const APISERVER_PREFIX := "kubernetes-master"

  predicate NamedLike(key: ObjectKey, prefix: string) {
    prefix <= key.name && key.namespace == SYSTEM_NAMESPACE
  }

  // What an event does to its key

  datatype Effect = Admit | Evict | Ignore

  /** An event reduced to its key, its object and its effect. */
  datatype Notice<O> = Notice(key: ObjectKey, obj: O, effect: Effect) {
    predicate Admits(k: ObjectKey) {
      key == k && effect == Admit
    }

    predicate Evicts(k: ObjectKey) {
      key == k && effect == Evict
    }
  }

  function PodNotice(prefix: string, host: IPv4, e: Event<Pod>): Notice<Pod> {
    Notice(e.obj.key, e.obj,
           if e.Remove? then Evict
           else if !NamedLike(e.obj.key, prefix) || e.obj.hostIP != host then Ignore
           else if e.obj.ready then Admit else Evict)
  }

  function ServiceNotice(e: Event<Service>): Notice<Service> {
    Notice(e.obj.key, e.obj,
           if e.Remove? then Evict else if |e.obj.externalIPs| == 0 then Ignore else Admit)
  }

  predicate HasReadyAddress(e: Endpoints) {
    exists i :: 0 <= i < |e.addresses| && e.addresses[i] > 0
  }

  function EndpointsNotice(e: Event<Endpoints>): Notice<Endpoints> {
    Notice(e.obj.key, e.obj, if e.Upsert? && HasReadyAddress(e.obj) then Admit else Evict)
  }

  function NodeNotice(e: Event<Node>): Notice<Node> {
    Notice(e.obj.key, e.obj, if e.Upsert? && e.obj.podSubnet.Some? then Admit else Evict)
  }

  /** The effect on a store.  An object that is already there is not
      replaced. */
  function Note<O>(store: map<ObjectKey, O>, n: Notice<O>): map<ObjectKey, O> {
    match n.effect
    case Admit => if n.key in store then store else store[n.key := n.obj]
    case Evict => store - {n.key}
    case Ignore => store
  }

  /** The same on the keys alone. */
  function NoteKey<O>(keys: set<ObjectKey>, n: Notice<O>): set<ObjectKey> {
    match n.effect
    case Admit => keys + {n.key}
    case Evict => keys - {n.key}
    case Ignore => keys
  }

  lemma NoteKeyIsKeysOfNote<O>(store: map<ObjectKey, O>, n: Notice<O>)
    ensures NoteKey(store.Keys, n) == Note(store, n).Keys
  {
  }

  function NoteAll<O>(ns: seq<Notice<O>>): map<ObjectKey, O> {
    if ns == [] then map[] else Note(NoteAll(ns[..|ns| - 1]), ns[|ns| - 1])
  }

  // Membership in terms of the history

  /** Event i admits k, and no later one evicts it. */
  ghost predicate AdmittedAt<O>(ns: seq<Notice<O>>, i: nat, k: ObjectKey)
    requires i < |ns|
  {
    ns[i].Admits(k) && forall j :: i < j < |ns| ==> !ns[j].Evicts(k)
  }

  lemma AdmittedAtStep<O>(ns: seq<Notice<O>>, i: nat, k: ObjectKey)
    requires ns != [] && i < |ns| - 1
    ensures AdmittedAt(ns, i, k) <==> AdmittedAt(ns[..|ns| - 1], i, k) && !ns[|ns| - 1].Evicts(k)
  {
  }

  /** A key is stored just when some event admitted it and none has evicted it
      since. */
  lemma {:induction false} StoredIff<O>(ns: seq<Notice<O>>, k: ObjectKey)
    ensures k in NoteAll(ns) <==> exists i :: 0 <= i < |ns| && AdmittedAt(ns, i, k)
  {
    if ns != [] {
      var n := |ns| - 1;
      StoredIff(ns[..n], k);
      assert AdmittedAt(ns, n, k) <==> ns[n].Admits(k);
      forall i | 0 <= i < n
        ensures AdmittedAt(ns, i, k) <==> AdmittedAt(ns[..n], i, k) && !ns[n].Evicts(k)
      {
        AdmittedAtStep(ns, i, k);
      }
    }
  }

  /** The stored object is the first one admitted since the key was last
      absent, not the latest. */
  lemma {:induction false} FirstAdmittedIsStored<O>(ns: seq<Notice<O>>, i: nat, k: ObjectKey)
    requires i < |ns| && AdmittedAt(ns, i, k)
    requires k !in NoteAll(ns[..i])
    ensures k in NoteAll(ns) && NoteAll(ns)[k] == ns[i].obj
  {
    var n := |ns| - 1;
    if i < n {
      assert ns[..n][..i] == ns[..i];
      AdmittedAtStep(ns, i, k);
      FirstAdmittedIsStored(ns[..n], i, k);
    }
  }

  /** Event i is the last one on k. */
  ghost predicate IsLast<O>(ns: seq<Notice<O>>, i: nat, k: ObjectKey)
    requires i < |ns|
  {
    ns[i].key == k && forall j :: i < j < |ns| ==> ns[j].key != k
  }

  ghost predicate LastEventAdmits<O>(ns: seq<Notice<O>>, k: ObjectKey) {
    exists i :: 0 <= i < |ns| && IsLast(ns, i, k) && ns[i].effect == Admit
  }

  /** Where no event on a key is ignored, its last event decides. */
  lemma LastEventDecides<O>(ns: seq<Notice<O>>, k: ObjectKey)
    requires forall i :: 0 <= i < |ns| && ns[i].key == k ==> ns[i].effect != Ignore
    ensures k in NoteAll(ns) <==> LastEventAdmits(ns, k)
  {
    StoredIff(ns, k);
    if i :| 0 <= i < |ns| && AdmittedAt(ns, i, k) {
      var l := LastEventOf(ns, i, k);
      assert !ns[l].Evicts(k) && IsLast(ns, l, k);
    }
    forall i | 0 <= i < |ns| && IsLast(ns, i, k) && ns[i].effect == Admit
      ensures AdmittedAt(ns, i, k)
    {
    }
  }

  lemma LastEventOf<O>(ns: seq<Notice<O>>, i: nat, k: ObjectKey) returns (l: nat)
    requires i < |ns| && ns[i].key == k
    ensures i <= l < |ns| && ns[l].key == k && forall j :: l < j < |ns| ==> ns[j].key != k
  {
    l := |ns| - 1;
    while ns[l].key != k
      invariant i <= l < |ns|
      invariant forall j :: l < j < |ns| ==> ns[j].key != k
      decreases l
    {
      l := l - 1;
    }
  }

  // The four kinds of store

  function Notices<O(==)>(f: Event<O> -> Notice<O>, es: seq<Event<O>>): (ns: seq<Notice<O>>)
    ensures |ns| == |es| && forall i :: 0 <= i < |es| ==> ns[i] == f(es[i])
  {
    seq(|es|, i requires 0 <= i < |es| => f(es[i]))
  }

  /** Endpoints are stored just when the last event of their key was an add or
      update with a ready address. */
  lemma EndpointsStoredIff(es: seq<Event<Endpoints>>, k: ObjectKey)
    ensures var ns := Notices(EndpointsNotice, es);
            k in NoteAll(ns) <==>
            exists i :: 0 <= i < |es| && es[i].Upsert? && es[i].obj.key == k &&
                        (exists j :: 0 <= j < |es[i].obj.addresses| && es[i].obj.addresses[j] > 0) &&
                        forall j :: i < j < |es| ==> es[j].obj.key != k
  {
    var ns := Notices(EndpointsNotice, es);
    LastEventDecides(ns, k);
    assert forall i :: 0 <= i < |es| ==> (ns[i].effect == Admit <==> es[i].Upsert? && HasReadyAddress(es[i].obj));
  }

  /** A node is stored just when its last event was an add or update with the
      annotation. */
  lemma NodeStoredIff(es: seq<Event<Node>>, k: ObjectKey)
    ensures var ns := Notices(NodeNotice, es);
            k in NoteAll(ns) <==>
            exists i :: 0 <= i < |es| && es[i].Upsert? && es[i].obj.key == k && es[i].obj.podSubnet.Some? &&
                        forall j :: i < j < |es| ==> es[j].obj.key != k
  {
    var ns := Notices(NodeNotice, es);
    LastEventDecides(ns, k);
    assert forall i :: 0 <= i < |es| ==> (ns[i].effect == Admit <==> es[i].Upsert? && es[i].obj.podSubnet.Some?);
  }

  /** A service is stored just when some add or update since its last delete
      had external IPs: it stays when a later update takes them away. */
  lemma ServiceStoredIff(es: seq<Event<Service>>, k: ObjectKey)
    ensures k in NoteAll(Notices(ServiceNotice, es)) <==>
            exists i :: 0 <= i < |es| && es[i].Upsert? && es[i].obj.key == k && |es[i].obj.externalIPs| > 0 &&
                        forall j :: i < j < |es| ==> !(es[j].Remove? && es[j].obj.key == k)
  {
    var ns := Notices(ServiceNotice, es);
    StoredIff(ns, k);
    assert forall i :: 0 <= i < |es| ==>
      && (ns[i].Admits(k) <==> es[i].Upsert? && es[i].obj.key == k && |es[i].obj.externalIPs| > 0)
      && (ns[i].Evicts(k) <==> es[i].Remove? && es[i].obj.key == k);
    if i :| 0 <= i < |es| && AdmittedAt(ns, i, k) {
      assert es[i].Upsert? && forall j :: i < j < |es| ==> !(es[j].Remove? && es[j].obj.key == k);
    }
    if i :| 0 <= i < |es| && es[i].Upsert? && es[i].obj.key == k && |es[i].obj.externalIPs| > 0 &&
            forall j :: i < j < |es| ==> !(es[j].Remove? && es[j].obj.key == k) {
      assert AdmittedAt(ns, i, k);
    }
  }

  /** Once a pod has been seen on the host, no later event shows it elsewhere. */
  ghost predicate StaysOnHost(host: IPv4, es: seq<Event<Pod>>, k: ObjectKey) {
    forall i, j :: 0 <= i < j < |es| && es[i].obj.key == es[j].obj.key == k && es[i].obj.hostIP == host ==>
      es[j].obj.hostIP == host
  }

  /** A pod was admitted, not evicted since, and was last seen elsewhere. */
  ghost predicate LeftHost(host: IPv4, ns: seq<Notice<Pod>>, k: ObjectKey) {
    exists i, l :: 0 <= i < |ns| && 0 <= l < |ns| &&
                   AdmittedAt(ns, i, k) && IsLast(ns, l, k) && ns[l].obj.hostIP != host
  }

  /** The last event on k is an add or update of a pod with the prefix, in the
      system namespace, on the host and ready. */
  ghost predicate LastSeenReady(prefix: string, host: IPv4, es: seq<Event<Pod>>, k: ObjectKey) {
    exists i ::
      && 0 <= i < |es| && es[i].obj.key == k && (forall j :: i < j < |es| ==> es[j].obj.key != k)
      && es[i].Upsert? && prefix <= k.name && k.namespace == SYSTEM_NAMESPACE
      && es[i].obj.hostIP == host && es[i].obj.ready
  }

  lemma LastSeenReadyAdmits(prefix: string, host: IPv4, es: seq<Event<Pod>>, k: ObjectKey)
    ensures LastSeenReady(prefix, host, es, k) <==> LastEventAdmits(Notices(e => PodNotice(prefix, host, e), es), k)
  {
    var ns := Notices(e => PodNotice(prefix, host, e), es);
    if i :| 0 <= i < |ns| && IsLast(ns, i, k) && ns[i].effect == Admit {
      assert forall j :: i < j < |es| ==> ns[j].key == es[j].obj.key;
    }
    if i :| && 0 <= i < |es| && es[i].obj.key == k && (forall j :: i < j < |es| ==> es[j].obj.key != k)
            && es[i].Upsert? && prefix <= k.name && k.namespace == SYSTEM_NAMESPACE
            && es[i].obj.hostIP == host && es[i].obj.ready {
      assert IsLast(ns, i, k) && ns[i].effect == Admit;
    }
  }

  /** For proxies (and API servers) the last event decides just when the pod
      has not left the host while it was stored: events from another host are
      ignored, not taken as a departure. */
  lemma LastPodEventDecidesIff(prefix: string, host: IPv4, es: seq<Event<Pod>>, k: ObjectKey)
    ensures var ns := Notices(e => PodNotice(prefix, host, e), es);
            (k in NoteAll(ns) <==> LastSeenReady(prefix, host, es, k)) <==> !LeftHost(host, ns, k)
  {
    var ns := Notices(e => PodNotice(prefix, host, e), es);
    LastSeenReadyAdmits(prefix, host, es, k);
    StoredIff(ns, k);
    assert forall i :: 0 <= i < |ns| && IsLast(ns, i, k) && ns[i].effect == Admit ==> AdmittedAt(ns, i, k);
    if i :| 0 <= i < |ns| && AdmittedAt(ns, i, k) {
      var l := LastEventOf(ns, i, k);
      assert !ns[l].Evicts(k) && IsLast(ns, l, k);
      assert ns[l].effect == Admit <==> ns[l].obj.hostIP == host;
    }
  }

  /** In particular for a pod that stays on its host: it is stored just when
      its last event was an add or update of a matching, ready pod. */
  lemma PodStoredIff(prefix: string, host: IPv4, es: seq<Event<Pod>>, k: ObjectKey)
    requires StaysOnHost(host, es, k)
    ensures k in NoteAll(Notices(e => PodNotice(prefix, host, e), es)) <==> LastSeenReady(prefix, host, es, k)
  {
    var ns := Notices(e => PodNotice(prefix, host, e), es);
    LastPodEventDecidesIff(prefix, host, es, k);
    forall i, l | 0 <= i < |ns| && 0 <= l < |ns| && AdmittedAt(ns, i, k) && IsLast(ns, l, k)
      ensures ns[l].obj.hostIP == host
    {
      assert es[i].obj.key == es[l].obj.key == k && es[i].obj.hostIP == host;
    }
  }

  /** Without that, a pod that turns up on another host stays stored. */
  lemma MovedPodStaysStored(k: ObjectKey, host: IPv4, elsewhere: IPv4)
    requires NamedLike(k, PROXY_PREFIX) && host != elsewhere
    ensures k in NoteAll(Notices(e => PodNotice(PROXY_PREFIX, host, e),
                                 [Upsert(Pod(k, host, true)), Upsert(Pod(k, elsewhere, true))]))
  {
  }
}
