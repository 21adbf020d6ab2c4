/** The object stores of the external-services controller, the routes they ask
    for, and what an event does to them
    (`pkg/controller/externalservices.go`). */
module ExternalObjects {
  import opened Routes
  import opened ClusterObjects

  /** Only services with an external IP are ever stored, so that taking the
      first one is always possible. */
  type AnnouncedService = s: Service | s.externalIPs != []
    witness Service(ObjectKey("", ""), [IPv4(0, 0, 0, 0)])

  datatype Route = Route(service: AnnouncedService, proxy: Pod) {
    function Key(): RouteKey {
      RouteKey(service.externalIPs[0], 32, proxy.hostIP)
    }
  }

  /** The three object stores; of endpoints only the keys matter. */
  datatype Objects = Objects(
    services: map<ObjectKey, AnnouncedService>, endpoints: set<ObjectKey>, proxies: map<ObjectKey, Pod>)
  {
    ghost predicate Keyed() {
      && (forall k :: k in services ==> services[k].key == k)
      && (forall k :: k in proxies ==> proxies[k].key == k)
    }

    /** The three tests a route has to pass, in order. */
    predicate Passes(r: Route, check: nat) {
      if check == 0 then r.proxy.key in proxies
      else if check == 1 then r.service.key in services
      else r.service.key in endpoints
    }

    predicate Live(r: Route) {
      r.proxy.key in proxies && r.service.key in services && r.service.key in endpoints
    }

    /** s and p are stored and s has ready endpoints. */
    ghost predicate Wanted(s: AnnouncedService, p: Pod) {
      s in services.Values && s.key in endpoints && p in proxies.Values
    }

    /** The keys that should be announced. */
    ghost function Desired(): set<RouteKey> {
      set s, p | s in services.Values && p in proxies.Values && s.key in endpoints ::
        RouteKey(s.externalIPs[0], 32, p.hostIP)
    }

    /** The keys of those routes whose own proxy and service are still live. */
    ghost function LiveKeys(routes: map<RouteKey, Route>): set<RouteKey> {
      set k | k in routes && Live(routes[k])
    }
  }

  // Events

  datatype ObjectEvent =
    | PodEvent(pod: Event<Pod>)
    | ServiceEvent(service: Event<Service>)
    | EndpointsEvent(endpoints: Event<Endpoints>)

  function NoteService(
    store: map<ObjectKey, AnnouncedService>, e: Event<Service>): (r: map<ObjectKey, AnnouncedService>)
    ensures r == Note(store, ServiceNotice(e))
  {
    if e.Remove? then store - {e.obj.key}
    else if |e.obj.externalIPs| == 0 || e.obj.key in store then store
    else store[e.obj.key := e.obj]
  }

  /** The stores after a handler has treated the event. */
  function Handled(host: IPv4, o: Objects, e: ObjectEvent): Objects {
    match e
    case PodEvent(pod) => o.(proxies := Note(o.proxies, PodNotice(PROXY_PREFIX, host, pod)))
    case ServiceEvent(service) => o.(services := NoteService(o.services, service))
    case EndpointsEvent(endpoints) => o.(endpoints := NoteKey(o.endpoints, EndpointsNotice(endpoints)))
  }

  /** Whether the handler goes on to call Dirty: after every change, and after
      every deletion of a service. */
  predicate WillCallDirty(host: IPv4, o: Objects, e: ObjectEvent) {
    || (e.ServiceEvent? && e.service.Remove?)
    || Handled(host, o, e) != o
  }
}
