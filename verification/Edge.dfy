/** The edge tier of one scope, and the resolvers every derivation of it shares (program/program.go). */
module Edge {
  import opened Common

  datatype RouteKind = TlsTermination | Forward

  /** `vanity` holds the expanded names. */
  datatype Route = Route(kind: RouteKind, listen: nat, target: nat, vanity: seq<string>)

  /** `healthPort` 0 means no health endpoint; `fqdn` is the service's own name. */
  datatype Service = Service(name: string, host: string, ingress: string, routes: seq<Route>, healthPort: nat,
                             pki: bool, callee: bool, fqdn: string)

  datatype App = App(name: string, ingress: string, fqdn: string)

  datatype Gateway = Gateway(name: string, host: string, ingress: string, services: seq<string>, healthPort: nat,
                             fqdn: string)

  datatype Ingress = Ingress(name: string, host: string, healthPort: nat)

  datatype Cluster = Cluster(name: string, host: string)

  datatype Compute = Compute(fqdn: string, firstInstance: string)

  datatype Resources = Resources(
    computes: seq<Compute>, services: seq<Service>, apps: seq<App>, gateways: seq<Gateway>, ingresses: seq<Ingress>,
    clusters: seq<Cluster>, canonical: map<string, string>, ingressFqdn: string)

  // ---- Which host an ingress is ----

  /** The host of an ingress by name; a later one replaces an earlier, an unresolved one is skipped. */
  function IngressHost(ingresses: seq<Ingress>, canonical: map<string, string>, name: string): Option<string> {
    if ingresses == [] then None
    else
      var last := ingresses[|ingresses| - 1];
      if last.name == name && last.host in canonical then Some(canonical[last.host])
      else IngressHost(ingresses[..|ingresses| - 1], canonical, name)
  }

  /** The health port the firewall reads: by ingress name. */
  function HealthPortByName(ingresses: seq<Ingress>, name: string): nat {
    if ingresses == [] then 0
    else
      var last := ingresses[|ingresses| - 1];
      if last.name == name then last.healthPort else HealthPortByName(ingresses[..|ingresses| - 1], name)
  }

  /** The health port nginx listens on: by host. */
  function HealthPortByHost(ingresses: seq<Ingress>, canonical: map<string, string>, host: string): Option<nat> {
    if ingresses == [] then None
    else
      var last := ingresses[|ingresses| - 1];
      if last.host in canonical && canonical[last.host] == host then Some(last.healthPort)
      else HealthPortByHost(ingresses[..|ingresses| - 1], canonical, host)
  }

  lemma {:induction false} IngressHostIs(ingresses: seq<Ingress>, canonical: map<string, string>, name: string)
    ensures match IngressHost(ingresses, canonical, name)
      case Some(h) => exists i :: 0 <= i < |ingresses| && ingresses[i].name == name
                                  && ingresses[i].host in canonical && canonical[ingresses[i].host] == h
      case None => forall i | 0 <= i < |ingresses| && ingresses[i].name == name :: ingresses[i].host !in canonical
    decreases |ingresses|
  {
    if ingresses != [] {
      var front := ingresses[..|ingresses| - 1];
      IngressHostIs(front, canonical, name);
      assert ingresses[|ingresses| - 1].name == ingresses[|ingresses| - 1].name;
    }
  }

  lemma {:induction false} HealthPortByNameIs(ingresses: seq<Ingress>, i: nat)
    requires i < |ingresses| && forall a, b | 0 <= a < b < |ingresses| :: ingresses[a].name != ingresses[b].name
    ensures HealthPortByName(ingresses, ingresses[i].name) == ingresses[i].healthPort
    decreases |ingresses|
  {
    if i < |ingresses| - 1 { HealthPortByNameIs(ingresses[..|ingresses| - 1], i); }
  }

  lemma {:induction false} HealthPortByHostIs(ingresses: seq<Ingress>, canonical: map<string, string>, host: string)
    ensures match HealthPortByHost(ingresses, canonical, host)
      case Some(p) => exists i :: 0 <= i < |ingresses| && ingresses[i].healthPort == p
                                  && ingresses[i].host in canonical && canonical[ingresses[i].host] == host
      case None =>
        forall i | 0 <= i < |ingresses| && ingresses[i].host in canonical :: canonical[ingresses[i].host] != host
    decreases |ingresses|
  {
    if ingresses != [] {
      HealthPortByHostIs(ingresses[..|ingresses| - 1], canonical, host);
      assert ingresses[|ingresses| - 1].healthPort == ingresses[|ingresses| - 1].healthPort;
    }
  }

  // ---- The shared resolvers ----

  datatype IngressService = IngressService(svc: Service, ingHost: string, svcHost: string)
  {
    predicate CoLocated() { svcHost == ingHost }
  }

  function ResolveServices(res: Resources, services: seq<Service>): seq<IngressService> {
    if services == [] then []
    else
      var svc := services[0];
      var ing := IngressHost(res.ingresses, res.canonical, svc.ingress);
      (if svc.ingress == "" || (svc.routes == [] && svc.healthPort == 0) || ing.None? || svc.host !in res.canonical
       then []
       else [IngressService(svc, ing.value, res.canonical[svc.host])])
      + ResolveServices(res, services[1..])
  }

  datatype IngressApp = IngressApp(app: App, ingHost: string)

  function ResolveApps(res: Resources, apps: seq<App>): seq<IngressApp> {
    if apps == [] then []
    else
      var ing := IngressHost(res.ingresses, res.canonical, apps[0].ingress);
      (if apps[0].ingress == "" || ing.None? then [] else [IngressApp(apps[0], ing.value)])
      + ResolveApps(res, apps[1..])
  }

  /** A gateway whose host and fronting ingress both resolve; every consumer skips the others. */
  datatype EdgeGateway = EdgeGateway(gw: Gateway, host: string, ingHost: string)
  {
    predicate CoLocated() { host == ingHost }
  }

  function ResolveGateways(res: Resources, gateways: seq<Gateway>): seq<EdgeGateway> {
    if gateways == [] then []
    else
      var gw := gateways[0];
      var ing := IngressHost(res.ingresses, res.canonical, gw.ingress);
      (if gw.host !in res.canonical || ing.None? then [] else [EdgeGateway(gw, res.canonical[gw.host], ing.value)])
      + ResolveGateways(res, gateways[1..])
  }

  /** The service a gateway lists by name; a later namesake replaces an earlier one. */
  function ServiceByName(services: seq<Service>, name: string): Option<Service> {
    if services == [] then None
    else
      var last := services[|services| - 1];
      if last.name == name then Some(last) else ServiceByName(services[..|services| - 1], name)
  }

  datatype GatewayHealth = GatewayHealth(svc: Service, gwHost: string, svcHost: string, port: nat)
  {
    predicate CoLocated() { svcHost == gwHost }
  }

  /** One gateway's health tier: listed services with a health port and no ingress of their own, each once. */
  function HealthOfGateway(res: Resources, g: EdgeGateway, names: seq<string>, seen: set<string>): seq<GatewayHealth> {
    if names == [] then []
    else
      var svc := ServiceByName(res.services, names[0]);
      if svc.None? || svc.value.healthPort == 0 || svc.value.ingress != "" || names[0] in seen
         || svc.value.host !in res.canonical
      then HealthOfGateway(res, g, names[1..], seen)
      else [GatewayHealth(svc.value, g.ingHost, res.canonical[svc.value.host], g.gw.healthPort)]
           + HealthOfGateway(res, g, names[1..], seen + {names[0]})
  }

  function Names(hs: seq<GatewayHealth>): set<string> { set h | h in hs :: h.svc.name }

  function HealthOfGateways(res: Resources, gateways: seq<EdgeGateway>, seen: set<string>): seq<GatewayHealth> {
    if gateways == [] then []
    else
      var hs := HealthOfGateway(res, gateways[0], gateways[0].gw.services, seen);
      hs + HealthOfGateways(res, gateways[1..], seen + Names(hs))
  }

  function Services(res: Resources): seq<IngressService> { ResolveServices(res, res.services) }
  function Apps(res: Resources): seq<IngressApp> { ResolveApps(res, res.apps) }
  function Gateways(res: Resources): seq<EdgeGateway> { ResolveGateways(res, res.gateways) }
  function GatewayHealths(res: Resources): seq<GatewayHealth> { HealthOfGateways(res, Gateways(res), {}) }

  lemma {:induction false} ResolvedServiceIs(res: Resources, services: seq<Service>, r: IngressService)
    requires r in ResolveServices(res, services)
    ensures r.svc in services && IngressHost(res.ingresses, res.canonical, r.svc.ingress) == Some(r.ingHost)
    ensures r.svc.host in res.canonical && res.canonical[r.svc.host] == r.svcHost && r.svc.ingress != ""
    decreases |services|
  {
    if r in ResolveServices(res, services[1..]) { ResolvedServiceIs(res, services[1..], r); }
  }

  lemma {:induction false} ServiceByNameIs(services: seq<Service>, name: string)
    ensures match ServiceByName(services, name)
      case Some(svc) => svc in services && svc.name == name
      case None => forall svc | svc in services :: svc.name != name
    decreases |services|
  {
    if services != [] {
      ServiceByNameIs(services[..|services| - 1], name);
      assert services == services[..|services| - 1] + [services[|services| - 1]];
    }
  }

  lemma {:induction false} GatewayHealthHost(res: Resources, g: EdgeGateway, names: seq<string>, seen: set<string>,
                                             h: GatewayHealth)
    requires h in HealthOfGateway(res, g, names, seen)
    ensures h.svc in res.services && h.svc.host in res.canonical && res.canonical[h.svc.host] == h.svcHost
         && h.svc.ingress == ""
    decreases |names|
  {
    ServiceByNameIs(res.services, names[0]);
    if h in HealthOfGateway(res, g, names[1..], seen) {
      GatewayHealthHost(res, g, names[1..], seen, h);
    } else if h in HealthOfGateway(res, g, names[1..], seen + {names[0]}) {
      GatewayHealthHost(res, g, names[1..], seen + {names[0]}, h);
    }
  }

  lemma {:induction false} GatewayHealthsHost(res: Resources, gateways: seq<EdgeGateway>, seen: set<string>,
                                              h: GatewayHealth)
    requires h in HealthOfGateways(res, gateways, seen)
    ensures h.svc in res.services && h.svc.host in res.canonical && res.canonical[h.svc.host] == h.svcHost
         && h.svc.ingress == ""
    decreases |gateways|
  {
    var hs := HealthOfGateway(res, gateways[0], gateways[0].gw.services, seen);
    if h in hs {
      GatewayHealthHost(res, gateways[0], gateways[0].gw.services, seen, h);
    } else {
      GatewayHealthsHost(res, gateways[1..], seen + Names(hs), h);
    }
  }

  lemma {:induction false} ResolvedGatewayIs(res: Resources, gateways: seq<Gateway>, g: EdgeGateway)
    requires g in ResolveGateways(res, gateways)
    ensures g.gw in gateways && IngressHost(res.ingresses, res.canonical, g.gw.ingress) == Some(g.ingHost)
    ensures g.gw.host in res.canonical && res.canonical[g.gw.host] == g.host
    decreases |gateways|
  {
    if g in ResolveGateways(res, gateways[1..]) { ResolvedGatewayIs(res, gateways[1..], g); }
  }
}
