/** What nginx is told to run on each host of the edge (program/program.go realizeIngress and its derivations). */
module NginxEdge {
  import opened Common
  import opened Edge

  const ACME_PORT := 80
  const HTTPS_PORT := 443
  const GATEWAY_HTTP_PORT := 8442

  /** `local` means the backend is reached over loopback; otherwise its private address is filled in by service name. */
  datatype NginxRoute = NginxRoute(service: string, kind: RouteKind, fqdns: seq<string>, listen: nat, target: nat,
                                   local: bool)

  datatype NginxHealth = NginxHealth(service: string, fqdn: string, target: nat, local: bool)

  datatype NginxGateway = NginxGateway(name: string, fqdn: string, local: bool)

  /** The names a route serves: the service's own and its vanity names; a forward route serves none. */
  function IngressFqdns(svc: Service, rt: Route): seq<string> { [svc.fqdn] + rt.vanity }

  function RouteOf(s: IngressService, rt: Route): NginxRoute {
    NginxRoute(s.svc.name, rt.kind, if rt.kind == TlsTermination then IngressFqdns(s.svc, rt) else [],
               rt.listen, rt.target, s.CoLocated())
  }

  function RoutesOf(s: IngressService, routes: seq<Route>): seq<NginxRoute> {
    if routes == [] then [] else RoutesOf(s, routes[..|routes| - 1]) + [RouteOf(s, routes[|routes| - 1])]
  }

  function RoutesOn(ss: seq<IngressService>, host: string): seq<NginxRoute> {
    if ss == [] then []
    else
      var last := ss[|ss| - 1];
      RoutesOn(ss[..|ss| - 1], host) + (if last.ingHost == host then RoutesOf(last, last.svc.routes) else [])
  }

  function HealthOf(svc: Service, local: bool): NginxHealth { NginxHealth(svc.name, svc.fqdn, svc.healthPort, local) }

  function HealthOn(ss: seq<IngressService>, host: string): seq<NginxHealth> {
    if ss == [] then []
    else
      var last := ss[|ss| - 1];
      HealthOn(ss[..|ss| - 1], host)
      + (if last.ingHost == host && last.svc.healthPort > 0
         then [HealthOf(last.svc, last.CoLocated())] else [])
  }

  function GatewayHealthOn(hs: seq<GatewayHealth>, host: string): seq<NginxHealth> {
    if hs == [] then []
    else
      var last := hs[|hs| - 1];
      GatewayHealthOn(hs[..|hs| - 1], host)
      + (if last.gwHost == host then [HealthOf(last.svc, last.CoLocated())] else [])
  }

  function AppsOn(apps: seq<IngressApp>, host: string): seq<App> {
    if apps == [] then []
    else AppsOn(apps[..|apps| - 1], host) + (if apps[|apps| - 1].ingHost == host then [apps[|apps| - 1].app] else [])
  }

  /** The TLS half of a gateway, on its fronting ingress's host. */
  function TermsOn(gs: seq<EdgeGateway>, host: string): seq<NginxGateway> {
    if gs == [] then []
    else
      var last := gs[|gs| - 1];
      TermsOn(gs[..|gs| - 1], host)
      + (if last.ingHost == host then [NginxGateway(last.gw.name, last.gw.fqdn, last.CoLocated())] else [])
  }

  /** The plain-HTTP routing half, on the gateway's own host. */
  function RoutingsOn(gs: seq<EdgeGateway>, host: string): seq<NginxGateway> {
    if gs == [] then []
    else
      var last := gs[|gs| - 1];
      RoutingsOn(gs[..|gs| - 1], host)
      + (if last.host == host then [NginxGateway(last.gw.name, last.gw.fqdn, last.CoLocated())] else [])
  }

  datatype HostConfig = HostConfig(
    routes: seq<NginxRoute>, apps: seq<App>, health: seq<NginxHealth>, healthPort: nat,
    terms: seq<NginxGateway>, routings: seq<NginxGateway>)

  const DEFAULT_HEALTH_PORT := 81

  function ConfigOn(res: Resources, host: string): HostConfig {
    HostConfig(
      RoutesOn(Services(res), host), AppsOn(Apps(res), host),
      HealthOn(Services(res), host) + GatewayHealthOn(GatewayHealths(res), host),
      match HealthPortByHost(res.ingresses, res.canonical, host) { case Some(p) => p case None => DEFAULT_HEALTH_PORT },
      TermsOn(Gateways(res), host), RoutingsOn(Gateways(res), host))
  }

  predicate NeedsAcme(cfg: HostConfig) {
    (exists rt | rt in cfg.routes :: rt.kind == TlsTermination) || cfg.apps != [] || cfg.terms != []
  }

  /** The ports nginx accepts connections from the internet on. */
  function Listens(cfg: HostConfig): set<nat> {
    (set rt | rt in cfg.routes :: rt.listen)
    + (if NeedsAcme(cfg) then {ACME_PORT} else {})
    + (if cfg.apps != [] || cfg.terms != [] then {HTTPS_PORT} else {})
    + (if cfg.health != [] then {cfg.healthPort} else {})
  }

  function Get<T>(m: map<string, seq<T>>, k: string): seq<T> { if k in m then m[k] else [] }

  lemma RoutesOfSnoc(s: IngressService, routes: seq<Route>, j: nat)
    requires j < |routes|
    ensures RoutesOf(s, routes[..j + 1]) == RoutesOf(s, routes[..j]) + [RouteOf(s, routes[j])]
  {
    assert routes[..j + 1][..j] == routes[..j];
  }

  method AppendRoutes(s: IngressService, byHost0: map<string, seq<NginxRoute>>)
    returns (byHost: map<string, seq<NginxRoute>>)
    ensures Get(byHost, s.ingHost) == Get(byHost0, s.ingHost) + RoutesOf(s, s.svc.routes)
    ensures forall h | h != s.ingHost :: Get(byHost, h) == Get(byHost0, h)
  {
    byHost := byHost0;
    var routes := s.svc.routes;
    for j := 0 to |routes|
      invariant Get(byHost, s.ingHost) == Get(byHost0, s.ingHost) + RoutesOf(s, routes[..j])
      invariant forall h | h != s.ingHost :: Get(byHost, h) == Get(byHost0, h)
    {
      RoutesOfSnoc(s, routes, j);
      byHost := byHost[s.ingHost := Get(byHost, s.ingHost) + [RouteOf(s, routes[j])]];
    }
    assert routes[..|routes|] == routes;
  }

  /** Groups every route under its ingress's host, in service order. */
  method IngressRoutesByHost(ss: seq<IngressService>) returns (byHost: map<string, seq<NginxRoute>>)
    ensures forall h :: Get(byHost, h) == RoutesOn(ss, h)
  {
    byHost := map[];
    for k := 0 to |ss|
      invariant forall h :: Get(byHost, h) == RoutesOn(ss[..k], h)
    {
      byHost := AppendRoutes(ss[k], byHost);
      assert ss[..k + 1][..k] == ss[..k] && ss[..k + 1][k] == ss[k];
    }
    assert ss[..|ss|] == ss;
  }

  /** Gateways and ingresses of one host declare one health port, or the deploy stops. */
  predicate GatewayPortsAgree(res: Resources) {
    forall h | h in GatewayHealths(res) :: HealthPortByHost(res.ingresses, res.canonical, h.gwHost) == Some(h.port)
  }

  // ---- What the groupings hold ----

  lemma {:induction false} RoutesOfMember(s: IngressService, routes: seq<Route>)
    ensures forall r :: r in RoutesOf(s, routes) <==> exists rt :: rt in routes && r == RouteOf(s, rt)
    decreases |routes|
  {
    if routes != [] {
      var front, last := routes[..|routes| - 1], routes[|routes| - 1];
      RoutesOfMember(s, front);
      assert forall rt :: rt in routes <==> rt in front || rt == last;
    }
  }

  lemma {:induction false} RoutesOnMember(ss: seq<IngressService>, host: string)
    ensures forall r :: r in RoutesOn(ss, host) <==>
      exists s, rt :: s in ss && s.ingHost == host && rt in s.svc.routes && r == RouteOf(s, rt)
    decreases |ss|
  {
    if ss != [] {
      var front, last := ss[..|ss| - 1], ss[|ss| - 1];
      RoutesOnMember(front, host);
      RoutesOfMember(last, last.svc.routes);
      assert forall s :: s in ss <==> s in front || s == last;
    }
  }

  lemma {:induction false} HealthOnMember(ss: seq<IngressService>, host: string)
    ensures forall h :: h in HealthOn(ss, host) <==>
      exists s :: s in ss && s.ingHost == host && s.svc.healthPort > 0 && h == HealthOf(s.svc, s.CoLocated())
    decreases |ss|
  {
    if ss != [] {
      HealthOnMember(ss[..|ss| - 1], host);
      assert forall s :: s in ss <==> s in ss[..|ss| - 1] || s == ss[|ss| - 1];
    }
  }

  lemma {:induction false} GatewayHealthOnMember(hs: seq<GatewayHealth>, host: string)
    ensures forall h :: h in GatewayHealthOn(hs, host) <==>
      exists g :: g in hs && g.gwHost == host && h == HealthOf(g.svc, g.CoLocated())
    decreases |hs|
  {
    if hs != [] {
      GatewayHealthOnMember(hs[..|hs| - 1], host);
      assert forall s :: s in hs <==> s in hs[..|hs| - 1] || s == hs[|hs| - 1];
    }
  }

  lemma {:induction false} AppsOnMember(apps: seq<IngressApp>, host: string)
    ensures forall a :: a in AppsOn(apps, host) <==> IngressApp(a, host) in apps
    decreases |apps|
  {
    if apps != [] {
      var front, last := apps[..|apps| - 1], apps[|apps| - 1];
      AppsOnMember(front, host);
      assert forall s :: s in apps <==> s in front || s == last;
      assert last == IngressApp(last.app, last.ingHost);
    }
  }

  lemma {:induction false} TermsOnMember(gs: seq<EdgeGateway>, host: string)
    ensures forall t :: t in TermsOn(gs, host) <==>
      exists g :: g in gs && g.ingHost == host && t == NginxGateway(g.gw.name, g.gw.fqdn, g.CoLocated())
    decreases |gs|
  {
    if gs != [] {
      TermsOnMember(gs[..|gs| - 1], host);
      assert forall s :: s in gs <==> s in gs[..|gs| - 1] || s == gs[|gs| - 1];
    }
  }

  // ---- Backend addresses ----

  /** The host whose private address fills a route or health entry of this service: the last one recorded. */
  function BackendOfServices(ss: seq<IngressService>, host: string, name: string): Option<string> {
    if ss == [] then None
    else
      var last := ss[|ss| - 1];
      if last.ingHost == host && last.svc.name == name && !last.CoLocated() then Some(last.svcHost)
      else BackendOfServices(ss[..|ss| - 1], host, name)
  }

  function BackendOfHealth(hs: seq<GatewayHealth>, host: string, name: string): Option<string> {
    if hs == [] then None
    else
      var last := hs[|hs| - 1];
      if last.gwHost == host && last.svc.name == name && !last.CoLocated() then Some(last.svcHost)
      else BackendOfHealth(hs[..|hs| - 1], host, name)
  }

  /** The gateway health tier writes over the ingress tier. */
  function Backend(res: Resources, host: string, name: string): Option<string> {
    var h := BackendOfHealth(GatewayHealths(res), host, name);
    if h.Some? then h else BackendOfServices(Services(res), host, name)
  }

  /** The peer a split gateway's half needs: the gateway's host at the ingress, the ingress's host at the gateway. */
  function Peer(gs: seq<EdgeGateway>, host: string, name: string): Option<string> {
    if gs == [] then None
    else
      var last := gs[|gs| - 1];
      if last.gw.name == name && !last.CoLocated() && last.host == host then Some(last.ingHost)
      else if last.gw.name == name && !last.CoLocated() && last.ingHost == host then Some(last.host)
      else Peer(gs[..|gs| - 1], host, name)
  }

  /** The remote addresses nginx on a host opens connections to. */
  ghost predicate Dials(res: Resources, from: string, to: string, port: nat) {
    var cfg := ConfigOn(res, from);
    || (exists r :: r in cfg.routes && !r.local && Backend(res, from, r.service) == Some(to) && r.target == port)
    || (exists h :: h in cfg.health && !h.local && Backend(res, from, h.service) == Some(to) && h.target == port)
    || (exists t :: t in cfg.terms && !t.local && Peer(Gateways(res), from, t.name) == Some(to)
                    && port == GATEWAY_HTTP_PORT)
  }

  ghost predicate UniqueNames(res: Resources) {
    && (forall a, b | a in res.services && b in res.services && a.name == b.name :: a == b)
    && (forall a, b | a in res.gateways && b in res.gateways && a.name == b.name :: a == b)
  }

  lemma {:induction false} BackendOfServicesIs(ss: seq<IngressService>, host: string, name: string)
    ensures match BackendOfServices(ss, host, name)
      case Some(to) =>
        exists s :: s in ss && s.ingHost == host && s.svc.name == name && !s.CoLocated() && s.svcHost == to
      case None => forall s | s in ss && s.ingHost == host && s.svc.name == name :: s.CoLocated()
    decreases |ss|
  {
    if ss != [] {
      BackendOfServicesIs(ss[..|ss| - 1], host, name);
      assert forall s :: s in ss <==> s in ss[..|ss| - 1] || s == ss[|ss| - 1];
    }
  }

  lemma {:induction false} BackendOfHealthIs(hs: seq<GatewayHealth>, host: string, name: string)
    ensures match BackendOfHealth(hs, host, name)
      case Some(to) =>
        exists h :: h in hs && h.gwHost == host && h.svc.name == name && !h.CoLocated() && h.svcHost == to
      case None => forall h | h in hs && h.gwHost == host && h.svc.name == name :: h.CoLocated()
    decreases |hs|
  {
    if hs != [] {
      BackendOfHealthIs(hs[..|hs| - 1], host, name);
      assert forall s :: s in hs <==> s in hs[..|hs| - 1] || s == hs[|hs| - 1];
    }
  }

  lemma {:induction false} PeerIs(gs: seq<EdgeGateway>, host: string, name: string)
    ensures match Peer(gs, host, name)
      case Some(to) => exists g :: g in gs && g.gw.name == name && !g.CoLocated()
                                   && ((g.host == host && g.ingHost == to) || (g.ingHost == host && g.host == to))
      case None => forall g | g in gs && g.gw.name == name && g.ingHost == host :: g.CoLocated()
    decreases |gs|
  {
    if gs != [] {
      PeerIs(gs[..|gs| - 1], host, name);
      assert forall s :: s in gs <==> s in gs[..|gs| - 1] || s == gs[|gs| - 1];
    }
  }

  /** With unique names, a service's entries are filled with its own host's address. */
  lemma BackendIsOwn(res: Resources, s: IngressService)
    requires UniqueNames(res) && s in Services(res) && !s.CoLocated()
    ensures Backend(res, s.ingHost, s.svc.name) == Some(s.svcHost)
  {
    ResolvedServiceIs(res, res.services, s);
    BackendOfServicesIs(Services(res), s.ingHost, s.svc.name);
    BackendOfHealthIs(GatewayHealths(res), s.ingHost, s.svc.name);
    if h :| h in GatewayHealths(res) && h.svc.name == s.svc.name {
      GatewayHealthsHost(res, Gateways(res), {}, h);
      assert false;
    }
    var o :| o in Services(res) && o.ingHost == s.ingHost && o.svc.name == s.svc.name && !o.CoLocated()
      && BackendOfServices(Services(res), s.ingHost, s.svc.name) == Some(o.svcHost);
    ResolvedServiceIs(res, res.services, o);
  }

  lemma HealthBackendIsOwn(res: Resources, h: GatewayHealth)
    requires UniqueNames(res) && h in GatewayHealths(res) && !h.CoLocated()
    ensures Backend(res, h.gwHost, h.svc.name) == Some(h.svcHost)
  {
    BackendOfHealthIs(GatewayHealths(res), h.gwHost, h.svc.name);
    var o :| o in GatewayHealths(res) && o.gwHost == h.gwHost && o.svc.name == h.svc.name && !o.CoLocated()
      && BackendOfHealth(GatewayHealths(res), h.gwHost, h.svc.name) == Some(o.svcHost);
    GatewayHealthsHost(res, Gateways(res), {}, h);
    GatewayHealthsHost(res, Gateways(res), {}, o);
  }

  lemma PeerIsOwn(res: Resources, g: EdgeGateway)
    requires UniqueNames(res) && g in Gateways(res) && !g.CoLocated()
    ensures Peer(Gateways(res), g.ingHost, g.gw.name) == Some(g.host)
    ensures Peer(Gateways(res), g.host, g.gw.name) == Some(g.ingHost)
  {
    forall host | host == g.ingHost || host == g.host
      ensures Peer(Gateways(res), host, g.gw.name) == Some(if host == g.ingHost then g.host else g.ingHost)
    {
      PeerIs(Gateways(res), host, g.gw.name);
      PeerFound(Gateways(res), g, host);
      var o :| o in Gateways(res) && o.gw.name == g.gw.name && !o.CoLocated()
        && ((o.host == host && Peer(Gateways(res), host, g.gw.name) == Some(o.ingHost))
            || (o.ingHost == host && Peer(Gateways(res), host, g.gw.name) == Some(o.host)));
      ResolvedGatewayIs(res, res.gateways, g);
      ResolvedGatewayIs(res, res.gateways, o);
    }
  }

  lemma {:induction false} PeerFound(gs: seq<EdgeGateway>, g: EdgeGateway, host: string)
    requires g in gs && !g.CoLocated() && (host == g.host || host == g.ingHost)
    ensures Peer(gs, host, g.gw.name).Some?
    decreases |gs|
  {
    if g != gs[|gs| - 1] { PeerFound(gs[..|gs| - 1], g, host); }
  }
}
