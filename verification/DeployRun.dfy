/** The deploy program itself: the scope loop and its passes, registering commands as they go. */
module DeployRun {
  import opened Common
  import opened Mesh
  import opened Dag
  import opened DeployOrder

  /** What each pass of a scope may register. */
  datatype Pass = MeshPass | ClusterPass | GrantPass | ServicePass | MonitorPass

  predicate AfterBackupTools(kind: Kind) { kind.BackupCredential? || kind.BackupTimer? }

  predicate MayAdd(pass: Pass, scope: string, cmd: Command) {
    match pass
    case MeshPass => cmd.scope == scope && (cmd.kind.Gate? || cmd.kind.Reload? || cmd.kind.MeshDescriptor?)
    case ClusterPass => cmd.scope == scope
                        && (cmd.kind.Gate? || cmd.kind.Volume? || AfterBackupTools(cmd.kind)
                            || LaneOf(cmd).HostSetup?)
    case GrantPass => cmd.kind.Mint? && (cmd.scope == scope || cmd.scope == GLOBAL)
    case ServicePass => cmd.scope == scope && (cmd.kind.Gate? || cmd.kind.HostKey? || Restarts(cmd) || NeedsUnit(cmd))
    case MonitorPass => cmd.scope == scope
                        && (cmd.kind.Gate? || cmd.kind.MonitorMint? || cmd.kind.CollectorInstall?
                            || cmd.kind.CollectorConfig?)
  }

  ghost predicate Grew(pass: Pass, scope: string, g: seq<Node>, h: seq<Node>) {
    g <= h && forall i | |g| <= i < |h| :: MayAdd(pass, scope, h[i].cmd)
  }

  predicate HasReload(g: seq<Node>, scope: string, host: string) {
    exists i :: 0 <= i < |g| && g[i].cmd == Command(scope, host, Reload, "")
  }

  predicate HasCommand(g: seq<Node>, scope: string, kind: Kind, name: string) {
    exists i :: 0 <= i < |g| && g[i].cmd.scope == scope && g[i].cmd.kind == kind && g[i].cmd.name == name
  }

  /** The hosts that get a mesh proxy: those of a member or of the gateway. */
  function MeshHosts(res: Resources): set<string> {
    (set svc | svc in res.services && svc.pki != "" && res.Resolves(svc) :: res.canonical[svc.host])
    + (set gw | gw in res.gateways && gw.host in res.canonical :: res.canonical[gw.host])
  }

  ghost predicate GatesOk(gates: map<string, nat>, g: seq<Node>) {
    forall h | h in gates :: gates[h] < |g| && g[gates[h]].cmd.kind.Gate?
  }

  ghost predicate AllReloads(reloads: seq<nat>, g: seq<Node>) {
    forall i: nat :: i in reloads <==> i < |g| && g[i].cmd.kind.Reload?
  }

  /** A command with no rule of its own beyond its dependencies. */
  predicate Plain(kind: Kind) {
    kind.Gate? || kind.MeshDescriptor? || kind.HostKey? || kind.Volume? || kind.CollectorInstall?
      || AfterBackupTools(kind)
  }

  lemma AdmitPlain(g: seq<Node>, cmd: Command, deps: set<nat>)
    requires Plain(cmd.kind)
    requires forall d | d in deps :: d < |g| && !g[d].cmd.kind.MonitorMint? && !g[d].cmd.kind.CollectorConfig?
    ensures Admissible(g, Node(cmd, deps))
  {
  }

  lemma AdmitUnit(g: seq<Node>, reloads: seq<nat>, cmd: Command, gate: nat)
    requires cmd.kind.Provision? && gate < |g| && g[gate].cmd.kind.Gate? && AllReloads(reloads, g)
    ensures Admissible(g, Node(cmd, {gate} + Ids(reloads)))
  {
  }

  lemma AdmitDelivery(g: seq<Node>, reloads: seq<nat>, cmd: Command, unit: nat, others: set<nat>)
    requires NeedsUnit(cmd) && unit < |g| && IsUnitOf(g[unit].cmd, cmd) && AllReloads(reloads, g)
    requires cmd.kind.Secrets? ==> Ids(reloads) <= others
    requires forall d | d in others :: d < |g| && !g[d].cmd.kind.MonitorMint? && !g[d].cmd.kind.CollectorConfig?
    ensures Admissible(g, Node(cmd, {unit} + others))
  {
  }

  function Ids(s: seq<nat>): set<nat> { set i | i in s }

  lemma GrewTransitive(pass: Pass, scope: string, a: seq<Node>, b: seq<Node>, c: seq<Node>)
    requires Grew(pass, scope, a, b) && Grew(pass, scope, b, c)
    ensures Grew(pass, scope, a, c)
  {
  }

  /** No restart yet of a service that may call this scope. */
  ghost predicate NoneServed(g: seq<Node>, scope: string) {
    forall b | 0 <= b < |g| && Restarts(g[b].cmd) :: !Serves(scope, g[b].cmd.scope)
  }

  lemma NoneServedKept(g: seq<Node>, h: seq<Node>, scope: string)
    requires NoneServed(g, scope) && Grew(MeshPass, scope, g, h)
    ensures NoneServed(h, scope)
  {
  }

  lemma HasReloadGrows(g: seq<Node>, h: seq<Node>, scope: string, host: string)
    requires g <= h && HasReload(g, scope, host)
    ensures HasReload(h, scope, host)
  {
    var i :| 0 <= i < |g| && g[i].cmd == Command(scope, host, Reload, "");
    assert h[i] == g[i];
  }

  /** The service's unit exists and its files follow it. */
  ghost predicate Delivered(g: seq<Node>, sc: Scope, name: string) {
    && HasCommand(g, sc.key, Provision, name)
    && HasCommand(g, sc.key, if name in sc.secretBearing then Secrets else Descriptor, name)
  }

  lemma DeliveredGrows(g: seq<Node>, h: seq<Node>, sc: Scope, name: string)
    requires g <= h && Delivered(g, sc, name)
    ensures Delivered(h, sc, name)
  {
    HasCommandGrows(g, h, sc.key, Provision, name);
    HasCommandGrows(g, h, sc.key, if name in sc.secretBearing then Secrets else Descriptor, name);
  }

  /** Every service of the scope is delivered. */
  ghost predicate AllDelivered(g: seq<Node>, sc: Scope) {
    forall svc | svc in sc.res.services :: Delivered(g, sc, svc.name)
  }

  lemma AllDeliveredGrows(g: seq<Node>, h: seq<Node>, sc: Scope)
    requires g <= h && AllDelivered(g, sc)
    ensures AllDelivered(h, sc)
  {
    forall svc | svc in sc.res.services ensures Delivered(h, sc, svc.name) { DeliveredGrows(g, h, sc, svc.name); }
  }

  /** Every mesh host with a reload has one. */
  ghost predicate MeshLive(g: seq<Node>, sc: Scope) {
    forall h | h in MeshHosts(sc.res) && h in sc.live :: HasReload(g, sc.key, h)
  }

  lemma MeshLiveGrows(g: seq<Node>, h: seq<Node>, sc: Scope)
    requires g <= h && MeshLive(g, sc)
    ensures MeshLive(h, sc)
  {
    forall o | o in MeshHosts(sc.res) && o in sc.live ensures HasReload(h, sc.key, o) {
      HasReloadGrows(g, h, sc.key, o);
    }
  }

  predicate Placed(sc: Scope, svc: Service) {
    sc.res.Resolves(svc) && sc.res.canonical[svc.host] in sc.compute
  }

  class Deployment {
    var nodes: seq<Node>
    var meshReloads: seq<nat>

    ghost predicate Valid()
      reads this
    {
      Registered(nodes) && AllReloads(meshReloads, nodes)
    }

    constructor ()
      ensures Valid() && nodes == []
    {
      nodes, meshReloads := [], [];
    }

    /** Registers any command but a reload. */
    method Register(cmd: Command, deps: set<nat>) returns (id: nat)
      requires Valid() && Admissible(nodes, Node(cmd, deps)) && !cmd.kind.Reload?
      modifies this`nodes
      ensures Valid() && id == |old(nodes)| && nodes == old(nodes) + [Node(cmd, deps)]
    {
      RegisteredSnoc(nodes, Node(cmd, deps));
      id := |nodes|;
      nodes := nodes + [Node(cmd, deps)];
    }

    method CloudInitGate(gates: map<string, nat>, scope: string, host: string) returns (out: map<string, nat>, id: nat)
      requires Valid() && GatesOk(gates, nodes)
      modifies this`nodes
      ensures Valid() && old(nodes) <= nodes && |nodes| <= |old(nodes)| + 1
      ensures forall i | |old(nodes)| <= i < |nodes| :: nodes[i].cmd == Command(scope, host, Gate, "")
      ensures id < |nodes| && nodes[id].cmd.kind.Gate?
      ensures GatesOk(out, nodes)
    {
      if host in gates {
        return gates, gates[host];
      }
      AdmitPlain(nodes, Command(scope, host, Gate, ""), {});
      id := Register(Command(scope, host, Gate, ""), {});
      out := gates[host := id];
    }

    // ---- Mesh proxies ----

    method RegisterReload(scope: string, host: string, gate: nat)
      requires Valid() && gate < |nodes| && nodes[gate].cmd.kind.Gate?
      requires NoneServed(nodes, scope)
      modifies this
      ensures Valid() && nodes == old(nodes) + [Node(Command(scope, host, Reload, ""), {gate})]
      ensures HasReload(nodes, scope, host)
    {
      var n := Node(Command(scope, host, Reload, ""), {gate});
      RegisteredSnoc(nodes, n);
      meshReloads := meshReloads + [|nodes|];
      nodes := nodes + [n];
      assert nodes[|nodes| - 1].cmd == n.cmd;
    }

    /** One host: its gate, the reload unless the provider has none, and the mesh descriptor. */
    method RealizeHost(scope: string, host: string, live: bool, gates0: map<string, nat>)
      returns (gates: map<string, nat>)
      requires Valid() && GatesOk(gates0, nodes) && NoneServed(nodes, scope)
      modifies this
      ensures Valid() && GatesOk(gates, nodes) && Grew(MeshPass, scope, old(nodes), nodes)
      ensures live ==> HasReload(nodes, scope, host)
    {
      var gate;
      gates, gate := CloudInitGate(gates0, scope, host);
      if live {
        RegisterReload(scope, host, gate);
      }
      var cmd := Command(scope, host, MeshDescriptor, "");
      ghost var was := nodes;
      AdmitPlain(nodes, cmd, {gate});
      var _ := Register(cmd, {gate});
      if live { HasReloadGrows(was, nodes, scope, host); }
    }

    /** A provider without a reload adds no ordering. */
    method RealizeMesh(sc: Scope, gates0: map<string, nat>)
      returns (gates: map<string, nat>, r: Result<()>)
      requires Valid() && GatesOk(gates0, nodes) && NoneServed(nodes, sc.key)
      modifies this
      ensures Valid() && GatesOk(gates, nodes) && Grew(MeshPass, sc.key, old(nodes), nodes)
      ensures r.Ok? <==> MeshHosts(sc.res) <= sc.compute
      ensures r.Ok? ==> MeshLive(nodes, sc)
    {
      gates := gates0;
      var todo := MeshHosts(sc.res);
      while todo != {}
        invariant todo <= MeshHosts(sc.res) && MeshHosts(sc.res) - todo <= sc.compute
        invariant Valid() && GatesOk(gates, nodes) && Grew(MeshPass, sc.key, old(nodes), nodes)
        invariant forall h | h in MeshHosts(sc.res) - todo && h in sc.live :: HasReload(nodes, sc.key, h)
      {
        var host := Least(todo);
        if host !in sc.compute {
          return gates, Err("no compute output");
        }
        ghost var was := nodes;
        NoneServedKept(old(nodes), was, sc.key);
        gates := RealizeHost(sc.key, host, host in sc.live, gates);
        forall h | h in MeshHosts(sc.res) - (todo - {host}) && h in sc.live ensures HasReload(nodes, sc.key, h) {
          if h != host { HasReloadGrows(was, nodes, sc.key, h); }
        }
        GrewTransitive(MeshPass, sc.key, old(nodes), was, nodes);
        todo := todo - {host};
      }
      r := Ok(());
    }

    // ---- Services ----

    method ProvisionServices(sc: Scope, gates0: map<string, nat>) returns (gates: map<string, nat>, r: Result<()>)
      requires Valid() && GatesOk(gates0, nodes)
      modifies this`nodes
      ensures Valid() && GatesOk(gates, nodes) && Grew(ServicePass, sc.key, old(nodes), nodes)
      ensures r.Ok? <==> forall svc | svc in sc.res.services :: Placed(sc, svc)
      ensures r.Ok? ==> AllDelivered(nodes, sc)
    {
      gates := gates0;
      for k := 0 to |sc.res.services|
        invariant Valid() && GatesOk(gates, nodes) && Grew(ServicePass, sc.key, old(nodes), nodes)
        invariant forall i | 0 <= i < k :: Placed(sc, sc.res.services[i])
        invariant forall i | 0 <= i < k :: Delivered(nodes, sc, sc.res.services[i].name)
      {
        var svc := sc.res.services[k];
        if svc.host !in sc.res.canonical || sc.res.canonical[svc.host] !in sc.compute {
          assert svc in sc.res.services && !Placed(sc, svc);
          return gates, Err("host does not resolve");
        }
        ghost var was := nodes;
        gates := ProvisionOne(sc, svc, gates);
        GrewTransitive(ServicePass, sc.key, old(nodes), was, nodes);
        forall i | 0 <= i < k ensures Delivered(nodes, sc, sc.res.services[i].name) {
          DeliveredGrows(was, nodes, sc, sc.res.services[i].name);
        }
      }
      r := Ok(());
    }

    /** The unit, then the file delivery that depends on it. */
    method ProvisionOne(sc: Scope, svc: Service, gates0: map<string, nat>) returns (gates: map<string, nat>)
      requires Valid() && GatesOk(gates0, nodes) && svc.host in sc.res.canonical
      modifies this`nodes
      ensures Valid() && GatesOk(gates, nodes) && Grew(ServicePass, sc.key, old(nodes), nodes)
      ensures Delivered(nodes, sc, svc.name)
    {
      var host := sc.res.canonical[svc.host];
      var gate;
      gates, gate := CloudInitGate(gates0, sc.key, host);
      ghost var gated := nodes;
      var unit := ProvisionUnit(sc.key, host, svc.name, gate);
      ghost var was := nodes;
      Deliver(sc, host, svc.name, unit);
      GrewTransitive(ServicePass, sc.key, old(nodes), gated, was);
      GrewTransitive(ServicePass, sc.key, old(nodes), was, nodes);
    }

    /** Secrets for a service that has material, its descriptor alone for one that has none. */
    method Deliver(sc: Scope, host: string, name: string, unit: nat)
      requires Valid() && unit < |nodes| && nodes[unit].cmd == Command(sc.key, host, Provision, name)
      requires HasCommand(nodes, sc.key, Provision, name)
      modifies this`nodes
      ensures Valid() && Grew(ServicePass, sc.key, old(nodes), nodes) && Delivered(nodes, sc, name)
    {
      if name in sc.secretBearing {
        DeliverSecrets(sc.key, host, name, unit);
      } else {
        DeliverDescriptor(sc.key, host, name, unit);
      }
      HasCommandGrows(old(nodes), nodes, sc.key, Provision, name);
    }

    /** The unit's script ends in a try-restart, so it waits for every mesh reload so far. */
    method ProvisionUnit(scope: string, host: string, name: string, gate: nat) returns (unit: nat)
      requires Valid() && gate < |nodes| && nodes[gate].cmd.kind.Gate?
      modifies this`nodes
      ensures Valid() && Grew(ServicePass, scope, old(nodes), nodes)
      ensures unit < |nodes| && nodes[unit] == Node(Command(scope, host, Provision, name), {gate} + Ids(meshReloads))
      ensures HasCommand(nodes, scope, Provision, name)
    {
      var cmd := Command(scope, host, Provision, name);
      AdmitUnit(nodes, meshReloads, cmd, gate);
      unit := Register(cmd, {gate} + Ids(meshReloads));
      assert nodes[unit] == Node(cmd, {gate} + Ids(meshReloads));
    }

    /** Reads the host key once the unit exists, then writes the secrets and restarts: after the unit and every
        reload. */
    method DeliverSecrets(scope: string, host: string, name: string, unit: nat)
      requires Valid() && unit < |nodes| && nodes[unit].cmd == Command(scope, host, Provision, name)
      modifies this`nodes
      ensures Valid() && Grew(ServicePass, scope, old(nodes), nodes)
      ensures HasCommand(nodes, scope, Secrets, name)
      ensures nodes == old(nodes) + [Node(Command(scope, host, HostKey, name), {unit}),
                                     Node(Command(scope, host, Secrets, name),
                                          {unit} + ({|old(nodes)|} + Ids(meshReloads)))]
    {
      AdmitPlain(nodes, Command(scope, host, HostKey, name), {unit});
      var hostKey := Register(Command(scope, host, HostKey, name), {unit});
      var cmd := Command(scope, host, Secrets, name);
      AdmitDelivery(nodes, meshReloads, cmd, unit, {hostKey} + Ids(meshReloads));
      var delivered := Register(cmd, {unit} + ({hostKey} + Ids(meshReloads)));
      assert nodes[delivered].cmd == cmd;
    }

    method DeliverDescriptor(scope: string, host: string, name: string, unit: nat)
      requires Valid() && unit < |nodes| && nodes[unit].cmd == Command(scope, host, Provision, name)
      modifies this`nodes
      ensures Valid() && Grew(ServicePass, scope, old(nodes), nodes)
      ensures HasCommand(nodes, scope, Descriptor, name)
      ensures nodes == old(nodes) + [Node(Command(scope, host, Descriptor, name), {unit})]
    {
      var cmd := Command(scope, host, Descriptor, name);
      AdmitDelivery(nodes, meshReloads, cmd, unit, {});
      assert {unit} + {} == {unit};
      var delivered := Register(cmd, {unit});
      assert nodes[delivered].cmd == cmd;
    }
  }

  lemma HasCommandGrows(g: seq<Node>, h: seq<Node>, scope: string, kind: Kind, name: string)
    requires g <= h && HasCommand(g, scope, kind, name)
    ensures HasCommand(h, scope, kind, name)
  {
    var i :| 0 <= i < |g| && g[i].cmd.scope == scope && g[i].cmd.kind == kind && g[i].cmd.name == name;
    assert h[i] == g[i];
  }
}
