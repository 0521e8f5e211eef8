/** Service endpoints: six sources in order of priority, behind two caches. */
module EndpointCaches {
  import opened Common
  import Messages
  import PortMappings

  type Service = string
  type Url = string
  /** Milliseconds on a clock that does not run backwards. */
  type Time = int

  datatype EndpointSource = Local | Tunnel | LanPeer | Mesh | Config | Fallback {
    function Priority(): int {
      match this
      case Local => 0
      case Tunnel => 5
      case LanPeer => 10
      case Mesh => 20
      case Config => 30
      case Fallback => 100
    }
  }

  datatype ServiceEndpoint = ServiceEndpoint(url: Url, source: EndpointSource, latencyMs: Option<real>, healthy: bool)

  datatype LanOffer = LanOffer(url: Url, latencyMs: Option<real>, healthy: bool)

  /** What the router finds around it: tunnel mappings in table order, LAN peers, and the mesh registry if enabled. */
  datatype World = World(tunnels: seq<Messages.PortMapping>, lan: map<Service, LanOffer>, registry: Option<map<Service, Url>>)

  datatype RouterConfig = RouterConfig(local: map<Service, Url>, configured: map<Service, Url>, fallback: map<Service, Url>)

  datatype Cached<T> = Cached(value: T, at: Time)

  type MeshCache = map<Service, Cached<Url>>
  type RouterCache = map<Service, Cached<ServiceEndpoint>>

  /** The router compares whole seconds. */
  predicate RouterFresh(at: Time, now: Time) { (now - at) / 1000 < 30 }

  predicate MeshFresh(at: Time, now: Time) { now - at < 60_000 }

  // ---------- the mesh client ----------

  /** The answer of the mesh client and its cache afterwards. */
  function MeshAnswer(c: MeshCache, registry: map<Service, Url>, s: Service, now: Time): Option<Url> {
    if s in c && MeshFresh(c[s].at, now) then Some(c[s].value)
    else if s in registry then Some(registry[s])
    else None
  }

  function MeshAfter(c: MeshCache, registry: map<Service, Url>, s: Service, now: Time): MeshCache {
    if (s in c && MeshFresh(c[s].at, now)) || s !in registry then c else c[s := Cached(registry[s], now)]
  }

  class MeshClient {
    var cache: MeshCache

    constructor ()
      ensures cache == map[]
    {
      cache := map[];
    }

    method Resolve(registry: map<Service, Url>, s: Service, now: Time) returns (r: Option<Url>)
      modifies this
      ensures r == MeshAnswer(old(cache), registry, s, now)
      ensures cache == MeshAfter(old(cache), registry, s, now)
      ensures s in old(cache) && now - old(cache)[s].at < 60_000 ==> r == Some(old(cache)[s].value) && cache == old(cache)
      ensures !(s in old(cache) && now - old(cache)[s].at < 60_000) ==>
                if s in registry then r == Some(registry[s]) && cache == old(cache)[s := Cached(registry[s], now)]
                else r == None && cache == old(cache)
    {
      if s in cache {
        var cached := cache[s];
        if now - cached.at < 60_000 { return Some(cached.value); }
      }
      if s !in registry { return None; }
      cache := cache[s := Cached(registry[s], now)];
      return Some(registry[s]);
    }

    method ClearCache()
      modifies this
      ensures cache == map[]
    {
      cache := map[];
    }
  }

  // ---------- the sources ----------

  /** The first tunnel mapping with the service's name. */
  function TunnelPort(ms: seq<Messages.PortMapping>, s: Service): Option<Messages.Port> {
    if ms == [] then None else if ms[0].name == s then Some(ms[0].remotePort) else TunnelPort(ms[1..], s)
  }

  function LocalUrl(p: Messages.Port): Url { "http://localhost:" + PortMappings.Decimal(p) }

  /** What each source by itself has for a service; `mesh` is the mesh client's answer. */
  function Offer(cfg: RouterConfig, w: World, mesh: Option<Url>, s: Service, src: EndpointSource): Option<ServiceEndpoint> {
    match src
    case Local => if s in cfg.local then Some(ServiceEndpoint(cfg.local[s], Local, Some(0.0), true)) else None
    case Tunnel =>
      var p := TunnelPort(w.tunnels, s);
      if p.Some? then Some(ServiceEndpoint(LocalUrl(p.value), Tunnel, Some(1.0), true)) else None
    case LanPeer =>
      if s in w.lan && w.lan[s].healthy
      then Some(ServiceEndpoint(w.lan[s].url, LanPeer, w.lan[s].latencyMs, true)) else None
    case Mesh => if mesh.Some? then Some(ServiceEndpoint(mesh.value, Mesh, None, true)) else None
    case Config => if s in cfg.configured then Some(ServiceEndpoint(cfg.configured[s], Config, None, true)) else None
    case Fallback => if s in cfg.fallback then Some(ServiceEndpoint(cfg.fallback[s], Fallback, None, true)) else None
  }

  const NO_ENDPOINT := ServiceEndpoint("", Fallback, None, false)

  /** The mesh is asked only when nothing before it has the service, and only when enabled. */
  predicate AsksMesh(cfg: RouterConfig, w: World, s: Service) {
    && Offer(cfg, w, None, s, Local).None? && Offer(cfg, w, None, s, Tunnel).None? && Offer(cfg, w, None, s, LanPeer).None?
    && w.registry.Some?
  }

  function MeshSays(cfg: RouterConfig, w: World, c: MeshCache, s: Service, now: Time): Option<Url> {
    if AsksMesh(cfg, w, s) then MeshAnswer(c, w.registry.value, s, now) else None
  }

  function MeshCacheAfter(cfg: RouterConfig, w: World, c: MeshCache, s: Service, now: Time): MeshCache {
    if AsksMesh(cfg, w, s) then MeshAfter(c, w.registry.value, s, now) else c
  }

  /** The best endpoint: nobody with a smaller priority number has the service. */
  predicate IsBest(cfg: RouterConfig, w: World, mesh: Option<Url>, s: Service, e: ServiceEndpoint) {
    if exists src :: Offer(cfg, w, mesh, s, src).Some?
    then Offer(cfg, w, mesh, s, e.source) == Some(e)
         && forall src :: Offer(cfg, w, mesh, s, src).Some? ==> e.source.Priority() <= src.Priority()
    else e == NO_ENDPOINT
  }

  lemma BestIsUnique(cfg: RouterConfig, w: World, mesh: Option<Url>, s: Service, e: ServiceEndpoint, f: ServiceEndpoint)
    requires IsBest(cfg, w, mesh, s, e) && IsBest(cfg, w, mesh, s, f)
    ensures e == f
  {
    if exists src :: Offer(cfg, w, mesh, s, src).Some? {
      assert Offer(cfg, w, mesh, s, e.source).Some? && Offer(cfg, w, mesh, s, f.source).Some?;
      assert e.source.Priority() == f.source.Priority();
      assert e.source == f.source;
    }
  }

  // ---------- what the tables say ----------

  /** The `i`-th mapping is the first with the service's name. */
  predicate FirstNamed(ms: seq<Messages.PortMapping>, s: Service, i: nat) {
    i < |ms| && ms[i].name == s && forall j :: 0 <= j < i ==> ms[j].name != s
  }

  predicate Named(ms: seq<Messages.PortMapping>, s: Service) {
    exists m :: m in ms && m.name == s
  }

  /** The text is the local address with a number that reads as the port. */
  ghost predicate LocalAddress(url: Url, p: Messages.Port) {
    exists digits :: url == "http://localhost:" + digits && PortMappings.ParsePort(digits) == Some(p)
  }

  lemma LocalUrlIs(p: Messages.Port)
    ensures LocalAddress(LocalUrl(p), p)
  {
    PortMappings.ReadsDecimal(p);
    assert LocalUrl(p) == "http://localhost:" + PortMappings.Decimal(p);
  }

  predicate HasPeer(w: World, s: Service) { s in w.lan && w.lan[s].healthy }

  predicate Nearby(cfg: RouterConfig, w: World, s: Service) {
    s in cfg.local || Named(w.tunnels, s) || HasPeer(w, s)
  }

  /** What the mesh has for the service: an answer less than a minute old, or an entry of the registry. */
  predicate MeshHas(c: MeshCache, registry: map<Service, Url>, s: Service, now: Time, url: Url) {
    if s in c && now - c[s].at < 60_000 then url == c[s].value else s in registry && url == registry[s]
  }

  ghost predicate MeshKnows(w: World, c: MeshCache, s: Service, now: Time) {
    w.registry.Some? && exists url :: MeshHas(c, w.registry.value, s, now, url)
  }

  /** Which source the tables call for. */
  ghost predicate CallsFor(cfg: RouterConfig, w: World, c: MeshCache, s: Service, now: Time, src: EndpointSource) {
    match src
    case Local => s in cfg.local
    case Tunnel => s !in cfg.local && Named(w.tunnels, s)
    case LanPeer => s !in cfg.local && !Named(w.tunnels, s) && HasPeer(w, s)
    case Mesh => !Nearby(cfg, w, s) && MeshKnows(w, c, s, now)
    case Config => !Nearby(cfg, w, s) && !MeshKnows(w, c, s, now) && s in cfg.configured
    case Fallback => !Nearby(cfg, w, s) && !MeshKnows(w, c, s, now) && s !in cfg.configured
  }

  /** What the answer says, read off the tables. */
  ghost predicate TakenFrom(cfg: RouterConfig, w: World, c: MeshCache, s: Service, now: Time, e: ServiceEndpoint) {
    match e.source
    case Local => s in cfg.local && e.url == cfg.local[s] && e.latencyMs == Some(0.0) && e.healthy
    case Tunnel =>
      && (exists i :: 0 <= i < |w.tunnels| && FirstNamed(w.tunnels, s, i) && LocalAddress(e.url, w.tunnels[i].remotePort))
      && e.latencyMs == Some(1.0) && e.healthy
    case LanPeer => HasPeer(w, s) && e.url == w.lan[s].url && e.latencyMs == w.lan[s].latencyMs && e.healthy
    case Mesh => w.registry.Some? && MeshHas(c, w.registry.value, s, now, e.url) && e.latencyMs == None && e.healthy
    case Config => s in cfg.configured && e.url == cfg.configured[s] && e.latencyMs == None && e.healthy
    case Fallback =>
      e.latencyMs == None && if s in cfg.fallback then e.url == cfg.fallback[s] && e.healthy else e.url == "" && !e.healthy
  }

  /** The mesh client remembers what it had to ask the registry for, and it is asked for nothing near. */
  ghost predicate MeshRemembers(cfg: RouterConfig, w: World, c: MeshCache, s: Service, now: Time, c': MeshCache) {
    if !Nearby(cfg, w, s) && w.registry.Some? && !(s in c && now - c[s].at < 60_000) && s in w.registry.value
    then c' == c[s := Cached(w.registry.value[s], now)]
    else c' == c
  }

  // ---------- the router ----------

  class ServiceRouter {
    const config: RouterConfig
    const meshClient: MeshClient
    var cache: RouterCache

    constructor (config: RouterConfig, meshClient: MeshClient)
      ensures this.config == config && this.meshClient == meshClient && cache == map[]
    {
      this.config, this.meshClient, cache := config, meshClient, map[];
    }

    method FindTunnel(ms: seq<Messages.PortMapping>, s: Service) returns (p: Option<Messages.Port>)
      ensures p == TunnelPort(ms, s) && (p.Some? <==> Named(ms, s))
      ensures p.Some? ==> exists i :: 0 <= i < |ms| && FirstNamed(ms, s, i) && p.value == ms[i].remotePort
    {
      for i := 0 to |ms|
        invariant forall j :: 0 <= j < i ==> ms[j].name != s
        invariant TunnelPort(ms, s) == TunnelPort(ms[i..], s)
      {
        if ms[i].name == s {
          assert FirstNamed(ms, s, i) && ms[i] in ms;
          return Some(ms[i].remotePort);
        }
        assert ms[i..][1..] == ms[i + 1..];
      }
      return None;
    }

    /** Goes through the sources in order; the answer is the best one. */
    method ResolveEndpoint(w: World, s: Service, now: Time) returns (e: ServiceEndpoint)
      modifies meshClient
      ensures IsBest(config, w, MeshSays(config, w, old(meshClient.cache), s, now), s, e)
      ensures meshClient.cache == MeshCacheAfter(config, w, old(meshClient.cache), s, now)
      ensures CallsFor(config, w, old(meshClient.cache), s, now, e.source)
      ensures TakenFrom(config, w, old(meshClient.cache), s, now, e)
      ensures MeshRemembers(config, w, old(meshClient.cache), s, now, meshClient.cache)
    {
      ghost var mesh := MeshSays(config, w, meshClient.cache, s, now);
      ghost var offers := (src: EndpointSource) => Offer(config, w, mesh, s, src);
      if s in config.local {
        assert offers(Local).Some?;
        return ServiceEndpoint(config.local[s], Local, Some(0.0), true);
      }
      var p := FindTunnel(w.tunnels, s);
      if p.Some? {
        assert offers(Tunnel).Some? && offers(Local).None?;
        LocalUrlIs(p.value);
        return ServiceEndpoint(LocalUrl(p.value), Tunnel, Some(1.0), true);
      }
      if s in w.lan && w.lan[s].healthy {
        assert offers(LanPeer).Some? && offers(Local).None? && offers(Tunnel).None?;
        return ServiceEndpoint(w.lan[s].url, LanPeer, w.lan[s].latencyMs, true);
      }
      if w.registry.Some? {
        var url := meshClient.Resolve(w.registry.value, s, now);
        if url.Some? {
          assert MeshHas(old(meshClient.cache), w.registry.value, s, now, url.value);
          assert offers(Mesh).Some? && offers(Local).None? && offers(Tunnel).None? && offers(LanPeer).None?;
          return ServiceEndpoint(url.value, Mesh, None, true);
        }
      }
      if s in config.configured {
        assert offers(Config).Some?;
        return ServiceEndpoint(config.configured[s], Config, None, true);
      }
      if s in config.fallback {
        assert offers(Fallback).Some?;
        return ServiceEndpoint(config.fallback[s], Fallback, None, true);
      }
      return NO_ENDPOINT;
    }

    /** From the cache while fresh, else resolved and cached. */
    method GetEndpoint(w: World, s: Service, now: Time) returns (e: ServiceEndpoint)
      modifies this, meshClient
      ensures if s in old(cache) && RouterFresh(old(cache)[s].at, now)
              then e == old(cache)[s].value && cache == old(cache) && meshClient.cache == old(meshClient.cache)
              else
                && IsBest(config, w, MeshSays(config, w, old(meshClient.cache), s, now), s, e)
                && meshClient.cache == MeshCacheAfter(config, w, old(meshClient.cache), s, now)
                && cache == old(cache)[s := Cached(e, now)]
      ensures s in old(cache) && now - old(cache)[s].at < 30_000 ==> e == old(cache)[s].value && cache == old(cache)
      ensures !(s in old(cache) && now - old(cache)[s].at < 30_000) ==>
                && CallsFor(config, w, old(meshClient.cache), s, now, e.source)
                && TakenFrom(config, w, old(meshClient.cache), s, now, e)
                && MeshRemembers(config, w, old(meshClient.cache), s, now, meshClient.cache)
    {
      if s in cache {
        var cached := cache[s];
        if (now - cached.at) / 1000 < 30 { return cached.value; }
      }
      e := ResolveEndpoint(w, s, now);
      cache := cache[s := Cached(e, now)];
    }

    method ClearCache()
      modifies this
      ensures cache == map[]
    {
      cache := map[];
    }
  }
}
