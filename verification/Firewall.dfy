/** The firewall plan against the listeners and the backends it exists for (program/program.go firewallPlanByHost). */
module Firewall {
  import opened Common
  import opened Edge
  import opened NginxEdge

  const MTLS_PORT := 8443
  const CLUSTER_PORT_BASE := 5432

  type Rules = set<(string, nat)>

  // ---- The rules each part asks for ----

  function RoutesPublic(host: string, routes: seq<Route>): Rules {
    (set rt | rt in routes :: (host, rt.listen)) +
      (set rt | rt in routes && rt.kind == TlsTermination :: (host, ACME_PORT))
  }

  function RoutesPrivate(s: IngressService, routes: seq<Route>): Rules {
    if s.CoLocated() then {} else set rt | rt in routes :: (s.svcHost, rt.target)
  }

  function ServicePublic(res: Resources, s: IngressService): Rules {
    RoutesPublic(s.ingHost, s.svc.routes)
    + (if s.svc.healthPort > 0 then {(s.ingHost, HealthPortByName(res.ingresses, s.svc.ingress))} else {})
  }

  function ServicePrivate(s: IngressService): Rules {
    RoutesPrivate(s, s.svc.routes)
    + (if s.svc.healthPort > 0 && !s.CoLocated() then {(s.svcHost, s.svc.healthPort)} else {})
  }

  function ServicesPublic(res: Resources, ss: seq<IngressService>): Rules {
    set s, r | s in ss && r in ServicePublic(res, s) :: r
  }
  function ServicesPrivate(ss: seq<IngressService>): Rules { set s, r | s in ss && r in ServicePrivate(s) :: r }

  function AppsPublic(apps: seq<IngressApp>): Rules {
    (set a | a in apps :: (a.ingHost, HTTPS_PORT)) + (set a | a in apps :: (a.ingHost, ACME_PORT))
  }

  function GatewaysPublic(gs: seq<EdgeGateway>): Rules {
    (set g | g in gs :: (g.ingHost, HTTPS_PORT)) + (set g | g in gs :: (g.ingHost, ACME_PORT))
  }

  function GatewaysPrivate(gs: seq<EdgeGateway>): Rules {
    set g | g in gs && !g.CoLocated() :: (g.host, GATEWAY_HTTP_PORT)
  }

  function HealthPublic(hs: seq<GatewayHealth>): Rules { set h | h in hs :: (h.gwHost, h.port) }
  function HealthPrivate(hs: seq<GatewayHealth>): Rules {
    set h | h in hs && !h.CoLocated() :: (h.svcHost, h.svc.healthPort)
  }

  function ClusterNames(res: Resources, host: string): set<string> {
    set c | c in res.clusters && c.host in res.canonical && res.canonical[c.host] == host :: c.name
  }

  function ClusterHosts(res: Resources): set<string> {
    set c | c in res.clusters && c.host in res.canonical :: res.canonical[c.host]
  }

  function ClusterPort(index: nat): nat { CLUSTER_PORT_BASE + index }

  function ClusterRules(res: Resources, hosts: set<string>): Rules {
    set h, i | h in hosts && 0 <= i < |ClusterNames(res, h)| :: (h, ClusterPort(i))
  }

  /** The first `n` cluster ports of one host. */
  function FirstPorts(host: string, n: nat): Rules {
    if n == 0 then {} else FirstPorts(host, n - 1) + {(host, ClusterPort(n - 1))}
  }

  function MeshRules(res: Resources, services: seq<Service>): Rules {
    set svc | svc in services && svc.pki && svc.host in res.canonical :: (res.canonical[svc.host], MTLS_PORT)
  }

  function EdgePublic(res: Resources): Rules {
    ServicesPublic(res, Services(res)) + AppsPublic(Apps(res)) + GatewaysPublic(Gateways(res)) +
      HealthPublic(GatewayHealths(res))
  }

  function EdgePrivate(res: Resources): Rules {
    ServicesPrivate(Services(res)) + GatewaysPrivate(Gateways(res)) + HealthPrivate(GatewayHealths(res))
  }

  lemma RoutesStep(s: IngressService, routes: seq<Route>, k: nat)
    requires k < |routes|
    ensures RoutesPublic(s.ingHost, routes[..k + 1]) ==
      RoutesPublic(s.ingHost, routes[..k]) + RoutesPublic(s.ingHost, [routes[k]])
    ensures RoutesPrivate(s, routes[..k + 1]) == RoutesPrivate(s, routes[..k]) + RoutesPrivate(s, [routes[k]])
  {
    assert routes[..k + 1] == routes[..k] + [routes[k]];
  }

  lemma ServicesStep(res: Resources, ss: seq<IngressService>, k: nat)
    requires k < |ss|
    ensures ServicesPublic(res, ss[..k + 1]) == ServicesPublic(res, ss[..k]) + ServicePublic(res, ss[k])
    ensures ServicesPrivate(ss[..k + 1]) == ServicesPrivate(ss[..k]) + ServicePrivate(ss[k])
  {
    assert ss[..k + 1] == ss[..k] + [ss[k]];
    assert forall s :: s in ss[..k + 1] <==> s in ss[..k] || s == ss[k];
  }

  lemma GatewaysStep(gs: seq<EdgeGateway>, k: nat)
    requires k < |gs|
    ensures GatewaysPublic(gs[..k + 1]) ==
      GatewaysPublic(gs[..k]) + {(gs[k].ingHost, HTTPS_PORT)} + {(gs[k].ingHost, ACME_PORT)}
    ensures GatewaysPrivate(gs[..k + 1]) ==
      GatewaysPrivate(gs[..k]) + (if gs[k].CoLocated() then {} else {(gs[k].host, GATEWAY_HTTP_PORT)})
  {
    assert gs[..k + 1] == gs[..k] + [gs[k]];
  }

  lemma {:induction false} FirstPortsAre(host: string, n: nat)
    ensures FirstPorts(host, n) == set i | 0 <= i < n :: (host, ClusterPort(i))
  {
    if n > 0 { FirstPortsAre(host, n - 1); }
  }

  lemma ClustersStep(res: Resources, done: set<string>, h: string)
    ensures ClusterRules(res, done + {h}) == ClusterRules(res, done) + FirstPorts(h, |ClusterNames(res, h)|)
  {
    FirstPortsAre(h, |ClusterNames(res, h)|);
  }

  // ---- The plan, filled rule by rule ----

  class Plan {
    var public: map<string, set<nat>>
    var private: map<string, set<nat>>

    ghost function Pub(): Rules reads this`public { set h, p | h in public && p in public[h] :: (h, p) }
    ghost function Priv(): Rules reads this`private { set h, p | h in private && p in private[h] :: (h, p) }

    constructor ()
      ensures Pub() == {} && Priv() == {}
    {
      public, private := map[], map[];
    }

    method AddPublic(host: string, port: nat)
      modifies this`public
      ensures Pub() == old(Pub()) + {(host, port)}
    {
      public := public[host := (if host in public then public[host] else {}) + {port}];
    }

    method AddPrivate(host: string, port: nat)
      modifies this`private
      ensures Priv() == old(Priv()) + {(host, port)}
    {
      private := private[host := (if host in private then private[host] else {}) + {port}];
    }

    method AddRoute(s: IngressService, rt: Route)
      modifies this
      ensures Pub() == old(Pub()) + RoutesPublic(s.ingHost, [rt]) && Priv() == old(Priv()) + RoutesPrivate(s, [rt])
    {
      AddPublic(s.ingHost, rt.listen);
      if rt.kind == TlsTermination {
        AddPublic(s.ingHost, ACME_PORT);
      }
      if !s.CoLocated() {
        AddPrivate(s.svcHost, rt.target);
      }
    }

    method AddRoutes(s: IngressService)
      modifies this
      ensures Pub() == old(Pub()) + RoutesPublic(s.ingHost, s.svc.routes)
           && Priv() == old(Priv()) + RoutesPrivate(s, s.svc.routes)
    {
      var routes := s.svc.routes;
      for k := 0 to |routes|
        invariant Pub() == old(Pub()) + RoutesPublic(s.ingHost, routes[..k])
        invariant Priv() == old(Priv()) + RoutesPrivate(s, routes[..k])
      {
        RoutesStep(s, routes, k);
        AddRoute(s, routes[k]);
      }
      assert routes[..|routes|] == routes;
    }

    method AddService(res: Resources, s: IngressService)
      modifies this
      ensures Pub() == old(Pub()) + ServicePublic(res, s) && Priv() == old(Priv()) + ServicePrivate(s)
    {
      AddRoutes(s);
      if s.svc.healthPort > 0 {
        AddPublic(s.ingHost, HealthPortByName(res.ingresses, s.svc.ingress));
        if !s.CoLocated() {
          AddPrivate(s.svcHost, s.svc.healthPort);
        }
      }
    }

    method AddServices(res: Resources, ss: seq<IngressService>)
      modifies this
      ensures Pub() == old(Pub()) + ServicesPublic(res, ss) && Priv() == old(Priv()) + ServicesPrivate(ss)
    {
      for k := 0 to |ss|
        invariant Pub() == old(Pub()) + ServicesPublic(res, ss[..k]) && Priv() == old(Priv()) + ServicesPrivate(ss[..k])
      {
        ServicesStep(res, ss, k);
        AddService(res, ss[k]);
      }
      assert ss[..|ss|] == ss;
    }

    method AddApps(apps: seq<IngressApp>)
      modifies this`public
      ensures Pub() == old(Pub()) + AppsPublic(apps)
    {
      for k := 0 to |apps|
        invariant Pub() == old(Pub()) + AppsPublic(apps[..k])
      {
        AddPublic(apps[k].ingHost, HTTPS_PORT);
        AddPublic(apps[k].ingHost, ACME_PORT);
        assert apps[..k + 1] == apps[..k] + [apps[k]];
      }
      assert apps[..|apps|] == apps;
    }

    method AddGateways(gs: seq<EdgeGateway>)
      modifies this
      ensures Pub() == old(Pub()) + GatewaysPublic(gs) && Priv() == old(Priv()) + GatewaysPrivate(gs)
    {
      for k := 0 to |gs|
        invariant Pub() == old(Pub()) + GatewaysPublic(gs[..k]) && Priv() == old(Priv()) + GatewaysPrivate(gs[..k])
      {
        GatewaysStep(gs, k);
        AddPublic(gs[k].ingHost, HTTPS_PORT);
        AddPublic(gs[k].ingHost, ACME_PORT);
        if gs[k].host != gs[k].ingHost {
          AddPrivate(gs[k].host, GATEWAY_HTTP_PORT);
        }
      }
      assert gs[..|gs|] == gs;
    }

    method AddGatewayHealth(hs: seq<GatewayHealth>)
      modifies this
      ensures Pub() == old(Pub()) + HealthPublic(hs) && Priv() == old(Priv()) + HealthPrivate(hs)
    {
      for k := 0 to |hs|
        invariant Pub() == old(Pub()) + HealthPublic(hs[..k]) && Priv() == old(Priv()) + HealthPrivate(hs[..k])
      {
        AddPublic(hs[k].gwHost, hs[k].port);
        if !hs[k].CoLocated() {
          AddPrivate(hs[k].svcHost, hs[k].svc.healthPort);
        }
        assert hs[..k + 1] == hs[..k] + [hs[k]];
      }
      assert hs[..|hs|] == hs;
    }

    method AddClustersOn(host: string, n: nat)
      modifies this`private
      ensures Priv() == old(Priv()) + FirstPorts(host, n)
    {
      for i := 0 to n
        invariant Priv() == old(Priv()) + FirstPorts(host, i)
      {
        AddPrivate(host, ClusterPort(i));
      }
    }

    method AddClusters(res: Resources)
      modifies this`private
      ensures Priv() == old(Priv()) + ClusterRules(res, ClusterHosts(res))
    {
      var todo, done := ClusterHosts(res), {};
      while todo != {}
        invariant done + todo == ClusterHosts(res)
        invariant Priv() == old(Priv()) + ClusterRules(res, done)
      {
        var h := Least(todo);
        AddClustersOn(h, |ClusterNames(res, h)|);
        ClustersStep(res, done, h);
        todo, done := todo - {h}, done + {h};
      }
      assert done == ClusterHosts(res);
    }

    method AddMesh(res: Resources, meshPublic: bool)
      modifies this
      ensures Pub() == old(Pub()) + (if meshPublic then MeshRules(res, res.services) else {})
      ensures Priv() == old(Priv()) + (if meshPublic then {} else MeshRules(res, res.services))
    {
      var svcs := res.services;
      for k := 0 to |svcs|
        invariant Pub() == old(Pub()) + (if meshPublic then MeshRules(res, svcs[..k]) else {})
        invariant Priv() == old(Priv()) + (if meshPublic then {} else MeshRules(res, svcs[..k]))
      {
        assert svcs[..k + 1] == svcs[..k] + [svcs[k]];
        if svcs[k].pki && svcs[k].host in res.canonical {
          if meshPublic {
            AddPublic(res.canonical[svcs[k].host], MTLS_PORT);
          } else {
            AddPrivate(res.canonical[svcs[k].host], MTLS_PORT);
          }
        }
      }
      assert svcs[..|svcs|] == svcs;
    }

    method AddEdge(res: Resources)
      modifies this
      ensures Pub() == old(Pub()) + EdgePublic(res) && Priv() == old(Priv()) + EdgePrivate(res)
    {
      AddServices(res, Services(res));
      AddApps(Apps(res));
      AddGateways(Gateways(res));
      AddGatewayHealth(GatewayHealths(res));
    }

    method AddBackends(res: Resources, meshPublic: bool)
      modifies this
      ensures Pub() == old(Pub()) + (if meshPublic then MeshRules(res, res.services) else {})
      ensures Priv() == old(Priv()) + ClusterRules(res, ClusterHosts(res))
                        + (if meshPublic then {} else MeshRules(res, res.services))
    {
      AddClusters(res);
      AddMesh(res, meshPublic);
    }
  }

  method FirewallPlanByHost(res: Resources, meshPublic: bool) returns (plan: Plan)
    ensures plan.Pub() == EdgePublic(res) + (if meshPublic then MeshRules(res, res.services) else {})
    ensures plan.Priv() == EdgePrivate(res) + ClusterRules(res, ClusterHosts(res))
                           + (if meshPublic then {} else MeshRules(res, res.services))
  {
    plan := new Plan();
    plan.AddEdge(res);
    assert plan.Pub() == EdgePublic(res) && plan.Priv() == EdgePrivate(res);
    plan.AddBackends(res, meshPublic);
  }

  // ---- The plan is what the edge needs ----

  predicate At(rules: Rules, host: string, port: nat) { (host, port) in rules }

  /** Every ingress-tier service with a health endpoint names an ingress with the port its host listens on. */
  predicate HealthAligned(res: Resources, host: string) {
    forall s | s in Services(res) && s.ingHost == host && s.svc.healthPort > 0 ::
      HealthPortByName(res.ingresses, s.svc.ingress) == ConfigOn(res, host).healthPort
  }

  /** Ingresses with distinct names that agree on one port per host align every health endpoint. */
  lemma AgreeingIngressesAlign(res: Resources, host: string)
    requires forall a, b | 0 <= a < b < |res.ingresses| :: res.ingresses[a].name != res.ingresses[b].name
    requires forall a, b | a in res.ingresses && b in res.ingresses && a.host in res.canonical
          && b.host in res.canonical
               && res.canonical[a.host] == res.canonical[b.host] :: a.healthPort == b.healthPort
    ensures HealthAligned(res, host)
  {
    forall s | s in Services(res) && s.ingHost == host && s.svc.healthPort > 0
      ensures HealthPortByName(res.ingresses, s.svc.ingress) == ConfigOn(res, host).healthPort
    {
      ResolvedServiceIs(res, res.services, s);
      IngressHostIs(res.ingresses, res.canonical, s.svc.ingress);
      var i :| 0 <= i < |res.ingresses| && res.ingresses[i].name == s.svc.ingress
        && res.ingresses[i].host in res.canonical && res.canonical[res.ingresses[i].host] == host;
      HealthPortByNameIs(res.ingresses, i);
      HealthPortByHostIs(res.ingresses, res.canonical, host);
      assert res.ingresses[i] in res.ingresses;
    }
  }

  ghost predicate RoutePort(res: Resources, host: string, port: nat) {
    exists s, rt :: s in Services(res) && s.ingHost == host && rt in s.svc.routes && rt.listen == port
  }

  ghost predicate Terminates(res: Resources, host: string) {
    exists s, rt :: s in Services(res) && s.ingHost == host && rt in s.svc.routes && rt.kind == TlsTermination
  }

  ghost predicate ServesApp(res: Resources, host: string) { exists a :: a in Apps(res) && a.ingHost == host }
  ghost predicate ServesGateway(res: Resources, host: string) { exists g :: g in Gateways(res) && g.ingHost == host }
  ghost predicate ServesHealth(res: Resources, host: string) {
    exists s :: s in Services(res) && s.ingHost == host && s.svc.healthPort > 0
  }
  ghost predicate ServesGatewayHealth(res: Resources, host: string) {
    exists h :: h in GatewayHealths(res) && h.gwHost == host
  }

  /** What both sides agree on without a hypothesis. */
  ghost predicate Plain(res: Resources, host: string, port: nat) {
    || RoutePort(res, host, port)
    || (port == ACME_PORT && (Terminates(res, host) || ServesApp(res, host) || ServesGateway(res, host)))
    || (port == HTTPS_PORT && (ServesApp(res, host) || ServesGateway(res, host)))
  }

  lemma RoutesRendered(res: Resources, host: string, port: nat)
    ensures RoutePort(res, host, port) <==> exists r :: r in ConfigOn(res, host).routes && r.listen == port
    ensures Terminates(res, host) <==> exists r :: r in ConfigOn(res, host).routes && r.kind == TlsTermination
  {
    RoutesOnMember(Services(res), host);
    var routes := ConfigOn(res, host).routes;
    if s, rt :| s in Services(res) && s.ingHost == host && rt in s.svc.routes && rt.listen == port {
      assert RouteOf(s, rt) in routes;
    }
    if s, rt :| s in Services(res) && s.ingHost == host && rt in s.svc.routes && rt.kind == TlsTermination {
      assert RouteOf(s, rt) in routes;
    }
  }

  lemma ServersRendered(res: Resources, host: string)
    ensures ConfigOn(res, host).apps != [] <==> ServesApp(res, host)
    ensures ConfigOn(res, host).terms != [] <==> ServesGateway(res, host)
  {
    var cfg := ConfigOn(res, host);
    AppsOnMember(Apps(res), host);
    TermsOnMember(Gateways(res), host);
    if cfg.apps != [] { assert cfg.apps[0] in cfg.apps; }
    if a :| a in Apps(res) && a.ingHost == host {
      assert a == IngressApp(a.app, host);
      assert a.app in cfg.apps;
    }
    if cfg.terms != [] { assert cfg.terms[0] in cfg.terms; }
    if g :| g in Gateways(res) && g.ingHost == host {
      assert NginxGateway(g.gw.name, g.gw.fqdn, g.CoLocated()) in cfg.terms;
    }
  }

  lemma HealthRendered(res: Resources, host: string)
    ensures ConfigOn(res, host).health != [] <==> ServesHealth(res, host) || ServesGatewayHealth(res, host)
  {
    var a, b := HealthOn(Services(res), host), GatewayHealthOn(GatewayHealths(res), host);
    HealthOnMember(Services(res), host);
    GatewayHealthOnMember(GatewayHealths(res), host);
    if a != [] { assert a[0] in a; }
    if b != [] { assert b[0] in b; }
    if s :| s in Services(res) && s.ingHost == host && s.svc.healthPort > 0 {
      assert HealthOf(s.svc, s.CoLocated()) in a;
    }
    if h :| h in GatewayHealths(res) && h.gwHost == host { assert HealthOf(h.svc, h.CoLocated()) in b; }
    assert ConfigOn(res, host).health == a + b;
  }

  lemma ListensIff(res: Resources, host: string, port: nat)
    ensures port in Listens(ConfigOn(res, host)) <==>
      Plain(res, host, port)
      || (port == ConfigOn(res, host).healthPort && (ServesHealth(res, host) || ServesGatewayHealth(res, host)))
  {
    RoutesRendered(res, host, port);
    ServersRendered(res, host);
    HealthRendered(res, host);
    InListens(ConfigOn(res, host), port);
  }

  lemma InListens(cfg: HostConfig, port: nat)
    ensures port in Listens(cfg) <==>
      || (exists r :: r in cfg.routes && r.listen == port)
      || (port == ACME_PORT
          && (cfg.apps != [] || cfg.terms != [] || exists r :: r in cfg.routes && r.kind == TlsTermination))
      || (port == HTTPS_PORT && (cfg.apps != [] || cfg.terms != []))
      || (port == cfg.healthPort && cfg.health != [])
  {
  }

  lemma ServicesPublicIff(res: Resources, host: string, port: nat)
    ensures (host, port) in ServicesPublic(res, Services(res)) <==>
      || RoutePort(res, host, port) || (port == ACME_PORT && Terminates(res, host))
      || exists s :: s in Services(res) && s.ingHost == host && s.svc.healthPort > 0
                     && HealthPortByName(res.ingresses, s.svc.ingress) == port
  {
    if s, rt :| s in Services(res) && s.ingHost == host && rt in s.svc.routes && rt.listen == port {
      assert (host, port) in ServicePublic(res, s);
    }
    if s, rt :| s in Services(res) && s.ingHost == host && rt in s.svc.routes && rt.kind == TlsTermination {
      assert (host, ACME_PORT) in ServicePublic(res, s);
    }
    if s :| s in Services(res) && s.ingHost == host && s.svc.healthPort > 0
            && HealthPortByName(res.ingresses, s.svc.ingress) == port {
      assert (host, port) in ServicePublic(res, s);
    }
  }

  lemma EdgePublicIff(res: Resources, host: string, port: nat)
    ensures (host, port) in EdgePublic(res) <==>
      || Plain(res, host, port)
      || (exists s :: s in Services(res) && s.ingHost == host && s.svc.healthPort > 0
                      && HealthPortByName(res.ingresses, s.svc.ingress) == port)
      || (exists h :: h in GatewayHealths(res) && h.gwHost == host && h.port == port)
  {
    ServicesPublicIff(res, host, port);
    AppsPublicIff(res, host, port);
    GatewaysPublicIff(res, host, port);
    HealthPublicIff(res, host, port);
    InEdgePublic(res, (host, port));
  }

  lemma InEdgePublic(res: Resources, rule: (string, nat))
    ensures rule in EdgePublic(res) <==>
      || rule in ServicesPublic(res, Services(res)) || rule in AppsPublic(Apps(res))
      || rule in GatewaysPublic(Gateways(res)) || rule in HealthPublic(GatewayHealths(res))
  {
  }

  lemma AppsPublicIff(res: Resources, host: string, port: nat)
    ensures (host, port) in AppsPublic(Apps(res)) <==> ServesApp(res, host) && (port == HTTPS_PORT || port == ACME_PORT)
  {
    if a :| a in Apps(res) && a.ingHost == host {
      assert (a.ingHost, HTTPS_PORT) in AppsPublic(Apps(res)) && (a.ingHost, ACME_PORT) in AppsPublic(Apps(res));
    }
  }

  lemma GatewaysPublicIff(res: Resources, host: string, port: nat)
    ensures (host, port) in GatewaysPublic(Gateways(res)) <==>
      ServesGateway(res, host) && (port == HTTPS_PORT || port == ACME_PORT)
  {
    if g :| g in Gateways(res) && g.ingHost == host {
      assert (g.ingHost, HTTPS_PORT) in GatewaysPublic(Gateways(res))
        && (g.ingHost, ACME_PORT) in GatewaysPublic(Gateways(res));
    }
  }

  lemma HealthPublicIff(res: Resources, host: string, port: nat)
    ensures (host, port) in HealthPublic(GatewayHealths(res)) <==>
      exists h :: h in GatewayHealths(res) && h.gwHost == host && h.port == port
  {
  }

  /** The public plan of a host is exactly the ports nginx listens on there. */
  lemma PublicPlanExact(res: Resources, host: string, port: nat)
    requires HealthAligned(res, host) && GatewayPortsAgree(res)
    ensures (host, port) in EdgePublic(res) <==> port in Listens(ConfigOn(res, host))
  {
    EdgePublicIff(res, host, port);
    ListensIff(res, host, port);
  }

  /** Without that hypothesis the plan is exact iff each port the rules name is listened on anyway, and the health
      listener's port is opened anyway. */
  lemma PublicPlanExactIff(res: Resources, host: string)
    requires GatewayPortsAgree(res)
    ensures (forall port: nat :: (host, port) in EdgePublic(res) <==> port in Listens(ConfigOn(res, host))) <==>
      && (forall s | s in Services(res) && s.ingHost == host && s.svc.healthPort > 0 ::
            var p := HealthPortByName(res.ingresses, s.svc.ingress);
            p == ConfigOn(res, host).healthPort || Plain(res, host, p))
      && (ServesHealth(res, host) && !ServesGatewayHealth(res, host) ==>
            var p := ConfigOn(res, host).healthPort;
            Plain(res, host, p) || exists s :: s in Services(res) && s.ingHost == host && s.svc.healthPort > 0
                                                && HealthPortByName(res.ingresses, s.svc.ingress) == p)
  {
    forall port: nat
      ensures (host, port) in EdgePublic(res) <==>
        || Plain(res, host, port)
        || (exists s :: s in Services(res) && s.ingHost == host && s.svc.healthPort > 0
                        && HealthPortByName(res.ingresses, s.svc.ingress) == port)
        || (exists h :: h in GatewayHealths(res) && h.gwHost == host && h.port == port)
      ensures port in Listens(ConfigOn(res, host)) <==>
        Plain(res, host, port)
        || (port == ConfigOn(res, host).healthPort && (ServesHealth(res, host) || ServesGatewayHealth(res, host)))
    {
      EdgePublicIff(res, host, port);
      ListensIff(res, host, port);
    }
  }

  ghost predicate ClosedHealth(res: Resources, host: string, port: nat) {
    GatewayPortsAgree(res) && UniqueNames(res) && port in Listens(ConfigOn(res, host))
      && (host, port) !in EdgePublic(res)
  }

  lemma LoneIsNotPlain(res: Resources, s: IngressService, port: nat)
    requires Services(res) == [s] && s.svc.routes == [] && Apps(res) == [] && Gateways(res) == []
    ensures !Plain(res, s.ingHost, port) && GatewayHealths(res) == []
  {
  }

  lemma LoneHealthIsClosed(res: Resources, s: IngressService)
    requires UniqueNames(res) && Services(res) == [s] && s.svc.routes == [] && s.svc.healthPort > 0
    requires Apps(res) == [] && Gateways(res) == []
    requires HealthPortByName(res.ingresses, s.svc.ingress) != ConfigOn(res, s.ingHost).healthPort
    ensures ClosedHealth(res, s.ingHost, ConfigOn(res, s.ingHost).healthPort)
  {
    var port := ConfigOn(res, s.ingHost).healthPort;
    assert s in Services(res);
    LoneIsNotPlain(res, s, port);
    EdgePublicIff(res, s.ingHost, port);
    ListensIff(res, s.ingHost, port);
  }

  function TwoPorts(svc: Service): Resources {
    Resources([], [svc], [], [], [Ingress("a", "h", 81), Ingress("b", "h", 82)], [], map["h" := "h-01"], "ingress")
  }

  lemma TwoPortsResolve(svc: Service)
    requires svc.host == "h" && svc.ingress == "a" && svc.healthPort > 0
    ensures Services(TwoPorts(svc)) == [IngressService(svc, "h-01", "h-01")]
  {
    var res := TwoPorts(svc);
    var ings := res.ingresses;
    assert ings[..1] == [Ingress("a", "h", 81)];
    assert IngressHost(ings, res.canonical, "a") == IngressHost(ings[..1], res.canonical, "a") == Some("h-01");
    assert res.canonical["h"] == "h-01";
    calc {
      Services(res);
      [IngressService(svc, "h-01", "h-01")] + ResolveServices(res, [svc][1..]);
      { assert [svc][1..] == []; }
      [IngressService(svc, "h-01", "h-01")];
    }
  }

  /** A concrete pair of ingresses sharing a host: nginx listens on the second one's port, which the firewall leaves
      closed. */
  lemma MisalignedHealthIsClosed()
    ensures exists res, host, port :: ClosedHealth(res, host, port)
  {
    var svc := Service("web", "h", "a", [], 8080, true, false, "web.svc");
    var res := TwoPorts(svc);
    TwoPortsResolve(svc);
    assert res.ingresses[..1] == [Ingress("a", "h", 81)];
    assert HealthPortByName(res.ingresses, "a") == HealthPortByName(res.ingresses[..1], "a") == 81;
    LoneHealthIsClosed(res, IngressService(svc, "h-01", "h-01"));
  }

  // ---- The private side ----

  /** The private plan opens exactly what nginx on another host of the scope dials. */
  lemma PrivatePlanExact(res: Resources, to: string, port: nat)
    requires UniqueNames(res)
    ensures (to, port) in EdgePrivate(res) <==> exists from :: Dials(res, from, to, port)
  {
    if (to, port) in EdgePrivate(res) { OpenedIsDialled(res, to, port); }
    if from :| Dials(res, from, to, port) { DialledIsOpened(res, from, to, port); }
  }

  lemma OpenedIsDialled(res: Resources, to: string, port: nat)
    requires UniqueNames(res) && (to, port) in EdgePrivate(res)
    ensures exists from :: Dials(res, from, to, port)
  {
    if (to, port) in ServicesPrivate(Services(res)) {
      var s :| s in Services(res) && (to, port) in ServicePrivate(s);
      ServiceIsDialled(res, s, port);
    } else if (to, port) in GatewaysPrivate(Gateways(res)) {
      var g :| g in Gateways(res) && !g.CoLocated() && g.host == to;
      GatewayIsDialled(res, g);
    } else {
      var h :| h in GatewayHealths(res) && !h.CoLocated() && h.svcHost == to && h.svc.healthPort == port;
      HealthIsDialled(res, h);
    }
  }

  lemma ServiceIsDialled(res: Resources, s: IngressService, port: nat)
    requires UniqueNames(res) && s in Services(res) && (s.svcHost, port) in ServicePrivate(s)
    ensures Dials(res, s.ingHost, s.svcHost, port)
  {
    var cfg := ConfigOn(res, s.ingHost);
    BackendIsOwn(res, s);
    RoutesOnMember(Services(res), s.ingHost);
    HealthOnMember(Services(res), s.ingHost);
    if rt :| rt in s.svc.routes && rt.target == port {
      assert RouteOf(s, rt) in cfg.routes;
    } else {
      assert HealthOf(s.svc, false) in cfg.health;
    }
  }

  lemma GatewayIsDialled(res: Resources, g: EdgeGateway)
    requires UniqueNames(res) && g in Gateways(res) && !g.CoLocated()
    ensures Dials(res, g.ingHost, g.host, GATEWAY_HTTP_PORT)
  {
    PeerIsOwn(res, g);
    TermsOnMember(Gateways(res), g.ingHost);
    assert NginxGateway(g.gw.name, g.gw.fqdn, false) in ConfigOn(res, g.ingHost).terms;
  }

  lemma HealthIsDialled(res: Resources, h: GatewayHealth)
    requires UniqueNames(res) && h in GatewayHealths(res) && !h.CoLocated()
    ensures Dials(res, h.gwHost, h.svcHost, h.svc.healthPort)
  {
    HealthBackendIsOwn(res, h);
    GatewayHealthOnMember(GatewayHealths(res), h.gwHost);
    assert HealthOf(h.svc, false) in ConfigOn(res, h.gwHost).health;
  }

  lemma DialledIsOpened(res: Resources, from: string, to: string, port: nat)
    requires UniqueNames(res) && Dials(res, from, to, port)
    ensures (to, port) in EdgePrivate(res)
  {
    var cfg := ConfigOn(res, from);
    if r :| r in cfg.routes && !r.local && Backend(res, from, r.service) == Some(to) && r.target == port {
      RoutesOnMember(Services(res), from);
      var s, rt :| s in Services(res) && s.ingHost == from && rt in s.svc.routes && r == RouteOf(s, rt);
      BackendIsOwn(res, s);
      assert (to, port) in ServicePrivate(s);
    } else if h :| h in cfg.health && !h.local && Backend(res, from, h.service) == Some(to) && h.target == port {
      HealthOnMember(Services(res), from);
      GatewayHealthOnMember(GatewayHealths(res), from);
      if h in HealthOn(Services(res), from) {
        var s :| s in Services(res) && s.ingHost == from && s.svc.healthPort > 0 && h == HealthOf(s.svc, s.CoLocated());
        BackendIsOwn(res, s);
        assert (to, port) in ServicePrivate(s);
      } else {
        var g :| g in GatewayHealths(res) && g.gwHost == from && h == HealthOf(g.svc, g.CoLocated());
        HealthBackendIsOwn(res, g);
      }
    } else {
      var t :| t in cfg.terms && !t.local && Peer(Gateways(res), from, t.name) == Some(to) && port == GATEWAY_HTTP_PORT;
      TermsOnMember(Gateways(res), from);
      var g :| g in Gateways(res) && g.ingHost == from && t == NginxGateway(g.gw.name, g.gw.fqdn, g.CoLocated());
      PeerIsOwn(res, g);
    }
  }

  // ---- Clusters and the mesh ----

  /** Each cluster's postmaster port: its position among its host's clusters by name. */
  function IndexIn(names: seq<string>, name: string): (i: nat)
    requires name in names
    ensures i < |names| && names[i] == name
  {
    if names[0] == name then 0 else 1 + IndexIn(names[1..], name)
  }

  function PostmasterPort(res: Resources, host: string, name: string): nat
    requires name in ClusterNames(res, host)
  {
    ClusterPort(IndexIn(Sorted(ClusterNames(res, host)), name))
  }

  /** Co-located clusters get distinct ports, and the plan opens exactly those. */
  lemma ClusterPortsExact(res: Resources, host: string, port: nat)
    requires host in ClusterHosts(res)
    ensures (host, port) in ClusterRules(res, ClusterHosts(res)) <==>
      exists name :: name in ClusterNames(res, host) && PostmasterPort(res, host, name) == port
    ensures forall a, b | a in ClusterNames(res, host) && b in ClusterNames(res, host) :: 
      PostmasterPort(res, host, a) == PostmasterPort(res, host, b) ==> a == b
  {
    var names := Sorted(ClusterNames(res, host));
    if (host, port) in ClusterRules(res, ClusterHosts(res)) {
      var i :| 0 <= i < |names| && port == ClusterPort(i);
      SortedNoDuplicates(ClusterNames(res, host));
      assert names[i] in names;
      assert PostmasterPort(res, host, names[i]) == port;
    }
  }

  ghost predicate MeshListener(res: Resources, host: string) {
    exists svc ::
      svc in res.services && svc.pki && svc.callee && svc.host in res.canonical && res.canonical[svc.host] == host
  }

  ghost predicate MeshMember(res: Resources, host: string) {
    exists svc :: svc in res.services && svc.pki && svc.host in res.canonical && res.canonical[svc.host] == host
  }

  /** The mesh port is open wherever a callee listens; it is open with nothing behind it exactly on hosts whose
      members only call out. */
  lemma MeshPortIff(res: Resources, host: string)
    ensures (host, MTLS_PORT) in MeshRules(res, res.services) <==> MeshMember(res, host)
    ensures MeshListener(res, host) ==> (host, MTLS_PORT) in MeshRules(res, res.services)
    ensures ((host, MTLS_PORT) in MeshRules(res, res.services) && !MeshListener(res, host)) <==>
      MeshMember(res, host) && forall svc | svc in res.services && svc.pki && svc.host in res.canonical
                                            && res.canonical[svc.host] == host :: !svc.callee
  {
    if svc :| svc in res.services && svc.pki && svc.host in res.canonical && res.canonical[svc.host] == host {
      assert (res.canonical[svc.host], MTLS_PORT) in MeshRules(res, res.services);
    }
  }
}
