/** From authored mesh policy to per-host nginx inputs (program/mesh.go, internal/meshplan, internal/meshcert). */
module Mesh {
  import opened Common

  const GLOBAL := "global"
  const GATEWAY := "gateway"
  const EGRESS_BASE := 9500
  const MAX_SERVICES := 256
  const GATEWAY_EGRESS_PORT := EGRESS_BASE + MAX_SERVICES

  datatype MeshBlock = MeshBlock(port: nat, allowed: seq<string>, publicPaths: seq<string>, internalPaths: seq<string>)

  datatype Service = Service(name: string, host: string, pki: string, mesh: Option<MeshBlock>)

  datatype Gateway = Gateway(host: string, pki: string)

  /** One resource set; `canonical` resolves an authored host name to its compute key. */
  datatype Resources = Resources(services: seq<Service>, gateways: seq<Gateway>, canonical: map<string, string>)
  {
    predicate Resolves(svc: Service) { svc.host in canonical }
  }

  /** The regional set deploys to every region; the global set once. */
  datatype Env = Env(regional: Resources, global: Resources, regions: seq<string>)
  {
    function Of(scope: string): Resources { if scope == GLOBAL then global else regional }
  }

  function Identity(scope: string, name: string): string { scope + "/" + name }

  function DNSName(scope: string, service: string): string { service + "." + scope + ".mesh" }

  function EgressPort(index: nat): nat { EGRESS_BASE + index }

  // ---- Allow-list expansion ----

  function MeshMembers(res: Resources): set<string> {
    set svc | svc in res.services && svc.pki != "" :: svc.name
  }

  /** The caller identities one authored name stands for at a callee of the given scope. */
  function IdentitiesOf(name: string, calleeScope: string, regions: seq<string>, regional: set<string>,
                        global: set<string>)
    : set<string>
  {
    if name == GATEWAY then {Identity(calleeScope, GATEWAY)}
    else if calleeScope != GLOBAL then {Identity(calleeScope, name)}
    else (if name in regional then set r | r in regions :: Identity(r, name) else {})
         + (if name in global then {Identity(GLOBAL, name)} else {})
  }

  /** Everyone an authored allow list admits. */
  function AllowedIds(allowed: seq<string>, calleeScope: string, regions: seq<string>, regional: set<string>,
                      global: set<string>)
    : set<string>
  {
    set name, id | name in allowed && id in IdentitiesOf(name, calleeScope, regions, regional, global) :: id
  }

  method ExpandAllowedCallers(allowed: seq<string>, calleeScope: string, regions: seq<string>,
                              regional: set<string>, global: set<string>)
    returns (out: seq<string>, dropped: seq<string>)
    ensures forall id :: id in out <==> id in AllowedIds(allowed, calleeScope, regions, regional, global)
    ensures forall name :: name in dropped <==>
      name in allowed && IdentitiesOf(name, calleeScope, regions, regional, global) == {}
    ensures forall i, j | 0 <= i < j < |out| :: StringLe(out[i], out[j]) && out[i] != out[j]
  {
    var ids: set<string> := {};
    dropped := [];
    for k := 0 to |allowed|
      invariant ids == AllowedIds(allowed[..k], calleeScope, regions, regional, global)
      invariant forall name :: name in dropped <==>
        name in allowed[..k] && IdentitiesOf(name, calleeScope, regions, regional, global) == {}
    {
      var name := allowed[k];
      var some := CallerIdentities(name, calleeScope, regions, regional, global);
      assert allowed[..k + 1] == allowed[..k] + [name];
      AllowedSnoc(allowed[..k], name, calleeScope, regions, regional, global);
      if some == {} {
        dropped := dropped + [name];
      }
      ids := ids + some;
    }
    assert allowed[..|allowed|] == allowed;
    out := Sorted(ids);
    SortedAscending(ids);
  }

  method CallerIdentities(name: string, calleeScope: string, regions: seq<string>, regional: set<string>,
                          global: set<string>)
    returns (some: set<string>)
    ensures some == IdentitiesOf(name, calleeScope, regions, regional, global)
  {
    some := {};
    if name == GATEWAY {
      some := {Identity(calleeScope, GATEWAY)};
    } else if calleeScope != GLOBAL {
      some := {Identity(calleeScope, name)};
    } else {
      if name in regional { some := set r | r in regions :: Identity(r, name); }
      if name in global { some := some + {Identity(GLOBAL, name)}; }
    }
  }

  lemma AllowedSnoc(allowed: seq<string>, name: string, calleeScope: string, regions: seq<string>,
                    regional: set<string>, global: set<string>)
    ensures AllowedIds(allowed + [name], calleeScope, regions, regional, global)
         == AllowedIds(allowed, calleeScope, regions, regional, global) +
           IdentitiesOf(name, calleeScope, regions, regional, global)
  {
  }

  // ---- Which members sit on which host ----

  predicate MemberOn(res: Resources, svc: Service, host: string) {
    svc in res.services && svc.pki != "" && res.Resolves(svc) && res.canonical[svc.host] == host
  }

  /** Stable insertion into a list sorted by name. */
  function InsertByName(svc: Service, sorted: seq<Service>): (r: seq<Service>)
    ensures multiset(r) == multiset(sorted) + multiset{svc}
  {
    if sorted == [] || StringLe(svc.name, sorted[0].name) then
      assert [svc] + sorted == [svc] + sorted;
      [svc] + sorted
    else
      assert sorted == [sorted[0]] + sorted[1..];
      [sorted[0]] + InsertByName(svc, sorted[1..])
  }

  /** A host's mesh members in name order: the order the positional egress ports index into. */
  function MembersOn(services: seq<Service>, canonical: map<string, string>, host: string): (r: seq<Service>)
    ensures forall m :: m in r <==> m in services && m.pki != "" && m.host in canonical && canonical[m.host] == host
    ensures |r| <= |services|
  {
    if services == [] then []
    else
      var rest := MembersOn(services[1..], canonical, host);
      assert services == [services[0]] + services[1..];
      var svc := services[0];
      if svc.pki != "" && svc.host in canonical && canonical[svc.host] == host then
        var r := InsertByName(svc, rest);
        assert forall m :: m in r <==> m in multiset(r);
        assert forall m :: m in rest <==> m in multiset(rest);
        assert |r| == |multiset(r)| && |rest| == |multiset(rest)|;
        r
      else rest
  }

  ghost predicate ByName(members: seq<Service>) {
    forall i, j | 0 <= i < j < |members| :: StringLe(members[i].name, members[j].name)
  }

  lemma {:induction false} InsertKeepsOrder(svc: Service, sorted: seq<Service>)
    requires ByName(sorted)
    ensures ByName(InsertByName(svc, sorted))
    decreases |sorted|
  {
    StringLeTotal(svc.name, svc.name);
    if sorted != [] {
      var head, tail := sorted[0], sorted[1..];
      if StringLe(svc.name, head.name) {
        forall j | 0 <= j < |sorted| ensures StringLe(svc.name, sorted[j].name) {
          if j > 0 { StringLeTransitive(svc.name, head.name, sorted[j].name); }
        }
      } else {
        StringLeTotal(svc.name, head.name);
        InsertKeepsOrder(svc, tail);
        var rest := InsertByName(svc, tail);
        forall m | m in rest ensures StringLe(head.name, m.name) {
          assert m in multiset(tail) + multiset{svc};
          if m != svc { var j :| 0 <= j < |tail| && tail[j] == m; assert sorted[j + 1] == m; }
        }
      }
    }
  }

  /** Members are in name order, so the positional ports do not depend on declaration order. */
  lemma {:induction false} MembersAreByName(services: seq<Service>, canonical: map<string, string>, host: string)
    ensures ByName(MembersOn(services, canonical, host))
    decreases |services|
  {
    if services != [] {
      MembersAreByName(services[1..], canonical, host);
      InsertKeepsOrder(services[0], MembersOn(services[1..], canonical, host));
    }
  }

  function Members(res: Resources, host: string): seq<Service> {
    MembersOn(res.services, res.canonical, host)
  }

  /** The scope's gateway, if it runs on this host; a later gateway on the host replaces an earlier one. */
  function GatewayOn(gateways: seq<Gateway>, canonical: map<string, string>, host: string): Option<Gateway> {
    if gateways == [] then None
    else
      var g := gateways[|gateways| - 1];
      if g.host in canonical && canonical[g.host] == host then Some(g)
      else GatewayOn(gateways[..|gateways| - 1], canonical, host)
  }

  // ---- Renderer inputs ----

  datatype EgressCaller = EgressCaller(name: string, port: nat)

  datatype LocalService = LocalService(name: string, sni: string, port: nat, allowed: set<string>, paths: seq<string>)

  datatype Target = Target(name: string, sni: string, host: string, isGlobal: bool)

  function EgressOfMembers(members: seq<Service>, from: nat): seq<EgressCaller> {
    if members == [] then []
    else [EgressCaller(members[0].name, EgressPort(from))] + EgressOfMembers(members[1..], from + 1)
  }

  /** Services by position, then the gateway on its fixed port. */
  function EgressOn(res: Resources, host: string): seq<EgressCaller> {
    EgressOfMembers(Members(res, host), 0)
    + (if GatewayOn(res.gateways, res.canonical, host).Some? then [EgressCaller(GATEWAY, GATEWAY_EGRESS_PORT)] else [])
  }

  lemma {:induction false} EgressOfMembersAt(members: seq<Service>, from: nat, i: nat)
    requires i < |members|
    ensures |EgressOfMembers(members, from)| == |members|
    ensures EgressOfMembers(members, from)[i] == EgressCaller(members[i].name, EgressPort(from + i))
    decreases |members|
  {
    if |members| > 1 {
      EgressOfMembersAt(members[1..], from + 1, if i == 0 then 0 else i - 1);
    }
  }

  /** The port injected as a service's INFORGE_MESH_URL: its position among its host's members. */
  function IndexOf(members: seq<Service>, name: string): (r: Option<nat>)
    ensures r.Some? ==> r.value < |members| && members[r.value].name == name
    ensures r.None? ==> forall m | m in members :: m.name != name
  {
    if members == [] then None
    else if members[0].name == name then Some(0)
    else match IndexOf(members[1..], name)
      case Some(i) => Some(i + 1)
      case None => None
  }

  /** The port of a member's own egress listener on a host. */
  function PortOn(res: Resources, host: string, name: string): Option<nat> {
    match IndexOf(Members(res, host), name)
    case Some(i) => Some(EgressPort(i))
    case None => None
  }

  ghost predicate DistinctNames(services: seq<Service>) {
    forall i, j | 0 <= i < j < |services| :: services[i].name != services[j].name
  }

  lemma {:induction false} InsertDistinct(svc: Service, sorted: seq<Service>)
    requires DistinctNames(sorted) && forall m | m in sorted :: m.name != svc.name
    ensures DistinctNames(InsertByName(svc, sorted))
    decreases |sorted|
  {
    if sorted != [] && !StringLe(svc.name, sorted[0].name) {
      InsertDistinct(svc, sorted[1..]);
      forall m | m in InsertByName(svc, sorted[1..]) ensures m.name != sorted[0].name {
        assert m in multiset(sorted[1..]) + multiset{svc};
        if m != svc { var j :| 0 <= j < |sorted[1..]| && sorted[1..][j] == m; assert sorted[j + 1] == m; }
      }
    }
  }

  lemma {:induction false} MembersDistinct(services: seq<Service>, canonical: map<string, string>, host: string)
    requires DistinctNames(services)
    ensures DistinctNames(MembersOn(services, canonical, host))
    decreases |services|
  {
    if services != [] {
      MembersDistinct(services[1..], canonical, host);
      var rest := MembersOn(services[1..], canonical, host);
      forall m | m in rest ensures m.name != services[0].name {
        var j :| 0 <= j < |services[1..]| && services[1..][j] == m;
        assert services[j + 1] == m;
      }
      InsertDistinct(services[0], rest);
    }
  }

  function MemberHosts(res: Resources): set<string> {
    set svc | svc in res.services && svc.pki != "" && res.Resolves(svc) :: res.canonical[svc.host]
  }

  /** The name has this port on one of these hosts. */
  ghost predicate PortAmong(res: Resources, hosts: set<string>, name: string, port: nat) {
    exists h :: h in hosts && PortOn(res, h, name) == Some(port)
  }

  lemma PortNeedsHost(res: Resources, host: string, name: string)
    ensures PortOn(res, host, name).Some? ==>
      exists svc :: MemberOn(res, svc, host) && svc.name == name && host in MemberHosts(res)
  {
    if PortOn(res, host, name).Some? {
      var m := Members(res, host)[IndexOf(Members(res, host), name).value];
      assert m in Members(res, host);
      assert MemberOn(res, m, host);
    }
  }

  lemma OneHost(res: Resources, a: string, b: string, name: string)
    requires DistinctNames(res.services) && PortOn(res, a, name).Some? && PortOn(res, b, name).Some?
    ensures a == b
  {
    PortNeedsHost(res, a, name);
    PortNeedsHost(res, b, name);
    var x :| MemberOn(res, x, a) && x.name == name;
    var y :| MemberOn(res, y, b) && y.name == name;
    var i :| 0 <= i < |res.services| && res.services[i] == x;
    var j :| 0 <= j < |res.services| && res.services[j] == y;
  }

  function PortsWith(members: seq<Service>, n: nat, ports: map<string, nat>): map<string, nat>
    requires n <= |members|
  {
    if n == 0 then ports else PortsWith(members, n - 1, ports)[members[n - 1].name := EgressPort(n - 1)]
  }

  lemma {:induction false} PortsWithAre(members: seq<Service>, n: nat, ports: map<string, nat>, name: string)
    requires n <= |members| && DistinctNames(members)
    ensures match IndexOf(members[..n], name)
      case Some(i) => name in PortsWith(members, n, ports) && PortsWith(members, n, ports)[name] == EgressPort(i)
      case None => (name in PortsWith(members, n, ports) <==> name in ports)
                   && (name in ports ==> PortsWith(members, n, ports)[name] == ports[name])
    decreases n
  {
    if n > 0 {
      PortsWithAre(members, n - 1, ports, name);
      IndexOfFront(members[..n - 1], members[n - 1], name);
      assert members[..n - 1] + [members[n - 1]] == members[..n];
    }
  }

  lemma IndexOfFront(front: seq<Service>, last: Service, name: string)
    requires DistinctNames(front + [last])
    ensures IndexOf(front + [last], name) == if last.name == name then Some(|front|) else IndexOf(front, name)
  {
    var all := front + [last];
    assert all[|front|] == last;
    match IndexOf(front, name)
    case Some(i) => assert all[i] == front[i];
    case None =>
      if last.name != name { forall m | m in all ensures m.name != name {} }
  }

  /** One host's members by position. */
  method AddHostPorts(members: seq<Service>, ports0: map<string, nat>) returns (ports: map<string, nat>)
    ensures ports == PortsWith(members, |members|, ports0)
  {
    ports := ports0;
    for i := 0 to |members|
      invariant ports == PortsWith(members, i, ports0)
    {
      ports := ports[members[i].name := EgressPort(i)];
    }
  }

  lemma HostPortsAre(res: Resources, host: string, ports: map<string, nat>, name: string)
    requires DistinctNames(res.services)
    ensures var after := PortsWith(Members(res, host), |Members(res, host)|, ports);
      match PortOn(res, host, name)
      case Some(port) => name in after && after[name] == port
      case None => (name in after <==> name in ports) && (name in ports ==> after[name] == ports[name])
  {
    var members := Members(res, host);
    MembersDistinct(res.services, res.canonical, host);
    PortsWithAre(members, |members|, ports, name);
    assert members[..|members|] == members;
  }

  /** Every name of these hosts has its port, and nothing else has one. */
  ghost predicate PortsAre(res: Resources, hosts: set<string>, ports: map<string, nat>) {
    forall name, port: nat :: (name in ports && ports[name] == port) <==> PortAmong(res, hosts, name, port)
  }

  lemma PortsGrow(res: Resources, done: set<string>, host: string, ports: map<string, nat>)
    requires DistinctNames(res.services) && host !in done && PortsAre(res, done, ports)
    ensures PortsAre(res, done + {host}, PortsWith(Members(res, host), |Members(res, host)|, ports))
  {
    var after := PortsWith(Members(res, host), |Members(res, host)|, ports);
    forall name, port: nat
      ensures (name in after && after[name] == port) <==> PortAmong(res, done + {host}, name, port)
    {
      HostPortsAre(res, host, ports, name);
      PortsStep(res, done, host, name, port);
      assert (name in ports && ports[name] == port) <==> PortAmong(res, done, name, port);
    }
  }

  /** Every member of a scope with the port its mesh URL points at: that of its own listener on its own host. */
  method EgressPortsByService(res: Resources) returns (ports: map<string, nat>)
    requires DistinctNames(res.services)
    ensures PortsAre(res, MemberHosts(res), ports)
  {
    ports := map[];
    var todo := MemberHosts(res);
    while todo != {}
      invariant todo <= MemberHosts(res) && PortsAre(res, MemberHosts(res) - todo, ports)
    {
      var host := Least(todo);
      PortsGrow(res, MemberHosts(res) - todo, host, ports);
      assert MemberHosts(res) - (todo - {host}) == MemberHosts(res) - todo + {host};
      ports := AddHostPorts(Members(res, host), ports);
      todo := todo - {host};
    }
    assert MemberHosts(res) - todo == MemberHosts(res);
  }

  lemma PortsStep(res: Resources, done: set<string>, host: string, name: string, port: nat)
    requires DistinctNames(res.services) && host !in done
    ensures PortAmong(res, done + {host}, name, port) <==>
      if PortOn(res, host, name).Some? then PortOn(res, host, name) == Some(port) else PortAmong(res, done, name, port)
  {
    if h :| h in done && PortOn(res, h, name) == Some(port) {
      if PortOn(res, host, name).Some? { OneHost(res, h, host, name); }
    }
  }

  /** The first callee of that name whose host resolves: later duplicates are skipped. */
  function FindCallee(services: seq<Service>, canonical: map<string, string>, name: string): (r: Option<Service>)
    ensures r.Some? ==> r.value in services && r.value.name == name && r.value.mesh.Some? && r.value.host in canonical
    ensures r.None? ==> forall svc | svc in services && svc.name == name && svc.mesh.Some? :: svc.host !in canonical
  {
    if services == [] then None
    else if services[0].name == name && services[0].mesh.Some? && services[0].host in canonical then Some(services[0])
    else FindCallee(services[1..], canonical, name)
  }

  function CalleeTarget(services: seq<Service>, canonical: map<string, string>, scope: string, isGlobal: bool,
                        name: string)
    : Option<Target>
  {
    match FindCallee(services, canonical, name)
    case Some(svc) => Some(Target(name, DNSName(scope, name), canonical[svc.host], isGlobal))
    case None => None
  }

  /** Same scope first; a regional scope then falls back to the global callees. */
  function TargetFor(env: Env, scope: string, name: string): Option<Target> {
    var own := CalleeTarget(env.Of(scope).services, env.Of(scope).canonical, scope, false, name);
    if own.Some? || scope == GLOBAL then own
    else CalleeTarget(env.global.services, env.global.canonical, GLOBAL, true, name)
  }

  /** The entry a map keyed by target name yields. */
  function Lookup(ts: seq<Target>, name: string): Option<Target> {
    if ts == [] then None else if ts[0].name == name then Some(ts[0]) else Lookup(ts[1..], name)
  }

  ghost predicate DistinctTargets(ts: seq<Target>) {
    forall i, j | 0 <= i < j < |ts| :: ts[i].name != ts[j].name
  }

  lemma {:induction false} LookupSnoc(ts: seq<Target>, t: Target, name: string)
    ensures Lookup(ts + [t], name) ==
      (if Lookup(ts, name).Some? then Lookup(ts, name) else if t.name == name then Some(t) else None)
    decreases |ts|
  {
    if ts != [] {
      LookupSnoc(ts[1..], t, name);
      assert (ts + [t])[1..] == ts[1..] + [t];
    }
  }

  lemma {:induction false} LookupMember(ts: seq<Target>, name: string)
    ensures Lookup(ts, name).Some? <==> exists i :: 0 <= i < |ts| && ts[i].name == name
    decreases |ts|
  {
    if ts != [] {
      LookupMember(ts[1..], name);
      if i :| 0 <= i < |ts| && ts[i].name == name {
        if i > 0 { assert ts[1..][i - 1].name == name; }
      }
      if i :| 0 <= i < |ts[1..]| && ts[1..][i].name == name { assert ts[i + 1].name == name; }
    }
  }

  /** Sorting the table by name does not change what the map yields. */
  lemma {:induction false} LookupIs(ts: seq<Target>, i: nat)
    requires DistinctTargets(ts) && i < |ts|
    ensures Lookup(ts, ts[i].name) == Some(ts[i])
    decreases i
  {
    if i > 0 { LookupIs(ts[1..], i - 1); }
  }

  lemma {:induction false} FindCalleeSnoc(services: seq<Service>, canonical: map<string, string>, k: nat, name: string)
    requires k < |services|
    ensures FindCallee(services[..k + 1], canonical, name) ==
      (if FindCallee(services[..k], canonical, name).Some? then FindCallee(services[..k], canonical, name)
       else if services[k].name == name && services[k].mesh.Some? && services[k].host in canonical
       then Some(services[k])
       else None)
    decreases k
  {
    if k > 0 {
      FindCalleeSnoc(services[1..], canonical, k - 1, name);
      assert services[..k + 1][1..] == services[1..][..k];
      assert services[..k][1..] == services[1..][..k - 1];
    }
  }

  function Merged(prior: seq<Target>, services: seq<Service>, canonical: map<string, string>, scope: string,
                  isGlobal: bool, name: string): Option<Target>
  {
    if Lookup(prior, name).Some? then Lookup(prior, name) else CalleeTarget(services, canonical, scope, isGlobal, name)
  }

  /** One pass over a resource set, appending each callee not seen before. */
  method AppendTargets(res: Resources, scope: string, isGlobal: bool, prior: seq<Target>) returns (out: seq<Target>)
    requires DistinctTargets(prior)
    ensures DistinctTargets(out)
    ensures forall name :: Lookup(out, name) == Merged(prior, res.services, res.canonical, scope, isGlobal, name)
  {
    out := prior;
    for k := 0 to |res.services|
      invariant DistinctTargets(out)
      invariant forall name ::
        Lookup(out, name) == Merged(prior, res.services[..k], res.canonical, scope, isGlobal, name)
    {
      var svc := res.services[k];
      ghost var was := out;
      var seen := Lookup(out, svc.name).Some?;
      LookupMember(out, svc.name);
      if svc.mesh.Some? && svc.host in res.canonical && !seen {
        out := out + [Target(svc.name, DNSName(scope, svc.name), res.canonical[svc.host], isGlobal)];
      }
      forall name
        ensures Lookup(out, name) == Merged(prior, res.services[..k + 1], res.canonical, scope, isGlobal, name)
      {
        FindCalleeSnoc(res.services, res.canonical, k, name);
        var host := if svc.host in res.canonical then res.canonical[svc.host] else "";
        LookupSnoc(was, Target(svc.name, DNSName(scope, svc.name), host, isGlobal), name);
      }
    }
    assert res.services[..|res.services|] == res.services;
  }

  /** A scope's routing table; sorting it by name afterwards changes only the order (LookupIs). */
  method MeshTargets(env: Env, scope: string) returns (out: seq<Target>)
    ensures DistinctTargets(out)
    ensures forall name :: Lookup(out, name) == TargetFor(env, scope, name)
  {
    out := AppendTargets(env.Of(scope), scope, false, []);
    if scope != GLOBAL {
      out := AppendTargets(env.global, GLOBAL, true, out);
    }
  }

  // ---- Trust ----

  /** The scopes a member verifies peers against. */
  function TrustSet(scope: string, regions: seq<string>): set<string> {
    {GLOBAL} + (if scope == GLOBAL then set r | r in regions else {scope})
  }

  method TrustSetList(scope: string, regions: seq<string>) returns (out: seq<string>)
    ensures forall s :: s in out <==> s in TrustSet(scope, regions)
  {
    var s := {GLOBAL};
    if scope == GLOBAL {
      for i := 0 to |regions|
        invariant s == {GLOBAL} + set r | r in regions[..i]
      {
        assert regions[..i + 1] == regions[..i] + [regions[i]];
        s := s + {regions[i]};
      }
      assert regions[..|regions|] == regions;
    } else {
      s := s + {scope};
    }
    out := Sorted(s);
  }

  /** A region trusts itself and global, and only the global scope trusts across. */
  lemma TrustIsMutual(a: string, b: string, regions: seq<string>)
    requires a == GLOBAL || a in regions
    requires b == GLOBAL || b in regions
    ensures b in TrustSet(a, regions) <==> a == b || a == GLOBAL || b == GLOBAL
    ensures b in TrustSet(a, regions) <==> a in TrustSet(b, regions)
  {
  }
}
