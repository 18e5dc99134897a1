/** internal/cli/rpcclient/cache.go and the receive loop of internal/cli/rpcclient/client.go. */
module ClientCaches {
  import opened EndpointMaps
  import opened Wrappers

  type Cache = map<string, ClientEvent>

  /** What one received event does to the cache. */
  function Handled(c: Cache, service: string, e: ClientEvent): Cache {
    if e.op.DELETED? then c - {service} else c[service := e]
  }

  function HandledAll(c: Cache, service: string, events: seq<ClientEvent>): Cache {
    if events == [] then c
    else Handled(HandledAll(c, service, events[..|events| - 1]), service, events[|events| - 1])
  }

  /** Only the last event matters, and only to its own service. */
  lemma {:induction false} LastEventCounts(c: Cache, service: string, events: seq<ClientEvent>)
    requires events != []
    ensures var last, d := events[|events| - 1], HandledAll(c, service, events);
            && (if last.op.DELETED? then service !in d else service in d && d[service] == last)
            && forall s :: s != service ==> (s in d <==> s in c) && (s in c ==> d[s] == c[s])
  {
    if |events| > 1 {
      LastEventCounts(c, service, events[..|events| - 1]);
    }
  }

  class ServiceCache {
    var cache: Cache

    constructor ()
      ensures cache == map[]
    {
      cache := map[];
    }

    method OnDelete(service: string)
      modifies this
      ensures cache == old(cache) - {service}
    {
      cache := cache - {service};
    }

    /** Of several endpoint sets the last one is taken; none at all changes nothing. */
    method OnUpdate(service: string, eps: seq<ClientEvent>)
      modifies this
      ensures cache == if eps == [] then old(cache) else old(cache)[service := eps[|eps| - 1]]
    {
      if |eps| > 0 {
        cache := cache[service := eps[|eps| - 1]];
      }
    }

    method OnAdd(service: string, eps: ClientEvent)
      modifies this
      ensures cache == old(cache)[service := eps]
    {
      cache := cache[service := eps];
    }

    method GetEndpoints(service: string) returns (eps: Option<ClientEvent>)
      ensures eps == if service in cache then Some(cache[service]) else None
    {
      if service !in cache {
        return None;
      }
      eps := Some(cache[service]);
    }

    method GetServiceIps(service: string) returns (ips: Ips)
      ensures ips == if service in cache then cache[service].endpoints else map[]
    {
      var eps := GetEndpoints(service);
      if eps.None? {
        return map[];
      }
      ips := GetIps(eps.value);
    }
  }

  /** Copies the endpoint map, key by key. */
  method GetIps(e: ClientEvent) returns (ips: Ips)
    ensures ips == e.endpoints
  {
    ips := map[];
    var todo := e.endpoints.Keys;
    while todo != {}
      invariant todo <= e.endpoints.Keys
      invariant ips == e.endpoints - todo
      decreases todo
    {
      var name :| name in todo;
      todo := todo - {name};
      ips := ips[name := e.endpoints[name]];
    }
    assert ips == e.endpoints;
  }

  class MeshClient {
    const serviceCache: ServiceCache

    constructor (serviceCache: ServiceCache)
      ensures this.serviceCache == serviceCache
    {
      this.serviceCache := serviceCache;
    }

    /** The receive loop, over the events that arrive before the stream breaks. */
    method Receive(service: string, stream: seq<ClientEvent>)
      modifies serviceCache
      ensures serviceCache.cache == HandledAll(old(serviceCache.cache), service, stream)
    {
      for i := 0 to |stream|
        invariant serviceCache.cache == HandledAll(old(serviceCache.cache), service, stream[..i])
      {
        var event := stream[i];
        match event.op {
          case ADDED => serviceCache.OnAdd(service, event);
          case MODIFIED => serviceCache.OnUpdate(service, [event]);
          case DELETED => serviceCache.OnDelete(service);
        }
        assert stream[..i + 1][..i] == stream[..i];
      }
      assert stream[..|stream|] == stream;
    }
  }
}
