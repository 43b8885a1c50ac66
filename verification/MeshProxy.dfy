/** What the rendered mesh proxies do with a request, and that it is what the authored policy says. */
module MeshProxy {
  import opened Common
  import opened Mesh

  // ---- The nginx variable of a callee's allow map ----

  predicate IsAlnum(c: char) {
    'a' <= c <= 'z' || 'A' <= c <= 'Z' || '0' <= c <= '9'
  }

  function Sanitize(s: string): (r: string)
    ensures |r| == |s|
    ensures forall i | 0 <= i < |s| :: r[i] == if IsAlnum(s[i]) then s[i] else '_'
  {
    if s == "" then "" else [if IsAlnum(s[0]) then s[0] else '_'] + Sanitize(s[1..])
  }

  function AllowVarName(service: string): string { "mesh_allow_" + Sanitize(service) }

  method BuildAllowVarName(service: string) returns (b: string)
    ensures b == AllowVarName(service)
  {
    b := "mesh_allow_";
    for i := 0 to |service|
      invariant |b| == 11 + i && b[..11] == "mesh_allow_"
      invariant forall k | 0 <= k < i :: b[11 + k] == if IsAlnum(service[k]) then service[k] else '_'
    {
      b := b + [if IsAlnum(service[i]) then service[i] else '_'];
    }
    assert b == b[..11] + b[11..];
    assert b[11..] == Sanitize(service);
  }

  predicate SchemaChar(c: char) { 'a' <= c <= 'z' || '0' <= c <= '9' || c == '_' || c == '-' }

  /** `^[a-z][a-z0-9_-]*$`, the name pattern every resource schema imposes. */
  predicate SchemaName(s: string) {
    |s| > 0 && 'a' <= s[0] <= 'z' && forall c | c in s :: SchemaChar(c)
  }

  /** Two characters nginx variables cannot tell apart. */
  predicate SameInVariable(c: char, d: char) { c == d || (c in "-_" && d in "-_") }

  lemma SanitizedIff(c: char, d: char)
    requires SchemaChar(c) && SchemaChar(d)
    ensures (if IsAlnum(c) then c else '_') == (if IsAlnum(d) then d else '_') <==> SameInVariable(c, d)
  {
  }

  lemma SanitizeIff(a: string, b: string)
    requires SchemaName(a) && SchemaName(b)
    ensures Sanitize(a) == Sanitize(b) <==> |a| == |b| && forall i | 0 <= i < |a| :: SameInVariable(a[i], b[i])
  {
    forall i | 0 <= i < |a| && i < |b| ensures Sanitize(a)[i] == Sanitize(b)[i] <==> SameInVariable(a[i], b[i]) {
      assert a[i] in a && b[i] in b;
      SanitizedIff(a[i], b[i]);
    }
    if |a| == |b| && forall i | 0 <= i < |a| :: SameInVariable(a[i], b[i]) {
      forall i | 0 <= i < |a| ensures Sanitize(a)[i] == Sanitize(b)[i] {}
    }
    if Sanitize(a) == Sanitize(b) {
      forall i | 0 <= i < |a| ensures SameInVariable(a[i], b[i]) { assert Sanitize(a)[i] == Sanitize(b)[i]; }
    }
  }

  /** Two schema names share a variable exactly when they differ at most by dashes against underscores. */
  lemma AllowVarClashIff(a: string, b: string)
    requires SchemaName(a) && SchemaName(b)
    ensures AllowVarName(a) == AllowVarName(b) <==> |a| == |b| && forall i | 0 <= i < |a| :: SameInVariable(a[i], b[i])
  {
    assert AllowVarName(a)[11..] == Sanitize(a) && AllowVarName(b)[11..] == Sanitize(b);
    SanitizeIff(a, b);
  }

  /** The documented alphabet without underscores keeps every callee's variable its own. */
  lemma AllowVarInjective(a: string, b: string)
    requires SchemaName(a) && SchemaName(b) && '_' !in a && '_' !in b
    ensures AllowVarName(a) == AllowVarName(b) <==> a == b
  {
    AllowVarClashIff(a, b);
    if AllowVarName(a) == AllowVarName(b) {
      forall i | 0 <= i < |a| ensures a[i] == b[i] { assert a[i] in a && b[i] in b; }
    }
  }

  lemma AllowVarClashes()
    ensures SchemaName("a-b") && SchemaName("a_b") && "a-b" != "a_b" && AllowVarName("a-b") == AllowVarName("a_b")
  {
    AllowVarClashIff("a-b", "a_b");
  }

  // ---- The callee plane ----

  function AllowedAt(env: Env, scope: string, allowed: seq<string>): set<string> {
    AllowedIds(allowed, scope, env.regions, MeshMembers(env.regional), MeshMembers(env.global))
  }

  function LocalsOf(env: Env, scope: string, members: seq<Service>): seq<LocalService> {
    if members == [] then []
    else
      var svc := members[0];
      (match svc.mesh
       case Some(m) => [LocalService(svc.name, DNSName(scope, svc.name), m.port, AllowedAt(env, scope, m.allowed),
                                     m.publicPaths + m.internalPaths)]
       case None => [])
      + LocalsOf(env, scope, members[1..])
  }

  function LocalsOn(env: Env, scope: string, host: string): seq<LocalService> {
    LocalsOf(env, scope, Members(env.Of(scope), host))
  }

  /** A repeated nginx map variable takes the last block's definition. */
  function LastBlock(locals: seq<LocalService>, variable: string): Option<LocalService> {
    if locals == [] then None
    else
      var last := locals[|locals| - 1];
      if AllowVarName(last.name) == variable then Some(last) else LastBlock(locals[..|locals| - 1], variable)
  }

  /** The value of a callee's allow variable for a verified peer identity. */
  predicate Allow(locals: seq<LocalService>, name: string, caller: string) {
    match LastBlock(locals, AllowVarName(name))
    case Some(block) => caller in block.allowed
    case None => false
  }

  function ServerFor(locals: seq<LocalService>, sni: string): Option<LocalService> {
    if locals == [] then None else if locals[0].sni == sni then Some(locals[0]) else ServerFor(locals[1..], sni)
  }

  // ---- The request path ----

  /** A member's process: a service, or the scope's gateway, on its host. */
  datatype Caller = Caller(scope: string, host: string, name: string)

  datatype Outcome = Refused | Reached(scope: string, host: string, service: string, port: nat, identity: string)

  function FindMember(members: seq<Service>, name: string): Option<Service> {
    match IndexOf(members, name)
    case Some(i) => Some(members[i])
    case None => None
  }

  /** The PKI of the leaf the proxy holds for a member of the host. */
  function LeafPki(env: Env, scope: string, host: string, name: string): Option<string> {
    var res := env.Of(scope);
    if name == GATEWAY then
      match GatewayOn(res.gateways, res.canonical, host) { case Some(g) => Some(g.pki) case None => None }
    else
      match FindMember(Members(res, host), name) { case Some(m) => Some(m.pki) case None => None }
  }

  predicate IsCaller(env: Env, c: Caller) {
    (c.scope == GLOBAL || c.scope in env.regions) && LeafPki(env, c.scope, c.host, c.name).Some?
  }

  /** The loopback port in the member's mesh URL. */
  function DialledPort(env: Env, c: Caller): nat {
    if c.name == GATEWAY then GATEWAY_EGRESS_PORT
    else match PortOn(env.Of(c.scope), c.host, c.name)
      case Some(port) => port
      case None => 0
  }

  function ListenerOn(egress: seq<EgressCaller>, port: nat): Option<EgressCaller> {
    if egress == [] then None else if egress[0].port == port then Some(egress[0]) else ListenerOn(egress[1..], port)
  }

  /** A host's bundle: the trust set of its scope, in every PKI one of its members belongs to. */
  predicate InBundle(env: Env, scope: string, host: string, pki: string, leafScope: string) {
    var res := env.Of(scope);
    && leafScope in TrustSet(scope, env.regions)
    && ((exists m | m in Members(res, host) :: m.pki == pki)
        || (GatewayOn(res.gateways, res.canonical, host).Some?
            && GatewayOn(res.gateways, res.canonical, host).value.pki == pki))
  }

  /** Hop by hop: egress listener, routing table, server certificate, client certificate, path, allow map. */
  function Evaluate(env: Env, matches: (string, string) -> bool, c: Caller, target: string, path: string): Outcome {
    match ListenerOn(EgressOn(env.Of(c.scope), c.host), DialledPort(env, c))
    case None => Refused
    case Some(listener) =>
      match TargetFor(env, c.scope, target)
      case None => Refused
      case Some(t) =>
        var scope := if t.isGlobal then GLOBAL else c.scope;
        var locals := LocalsOn(env, scope, t.host);
        match ServerFor(locals, t.sni)
        case None => Refused
        case Some(server) => Answer(env, matches, c, listener.name, scope, t.host, server, path)
  }

  /** At the callee's server: both certificates, then the path, then the allow map. */
  function Answer(env: Env, matches: (string, string) -> bool, c: Caller, name: string, scope: string, host: string,
                  server: LocalService, path: string): Outcome
  {
    var serverPki := LeafPki(env, scope, host, server.name);
    var clientPki := LeafPki(env, c.scope, c.host, name);
    var identity := Identity(c.scope, name);
    if serverPki.None? || !InBundle(env, c.scope, c.host, serverPki.value, scope) then Refused
    else if clientPki.None? || !InBundle(env, scope, host, clientPki.value, c.scope) then Refused
    else if !(exists g | g in server.paths :: matches(g, path)) then Refused
    else if !Allow(LocalsOn(env, scope, host), server.name, identity) then Refused
    else Reached(scope, host, server.name, server.port, identity)
  }

  // ---- The policy ----

  predicate IsCallee(res: Resources, svc: Service, name: string) {
    svc in res.services && svc.name == name && svc.mesh.Some? && res.Resolves(svc)
  }

  /** Same scope first, then global. */
  ghost predicate ResolvesTo(env: Env, scope: string, target: string, calleeScope: string, svc: Service) {
    || (calleeScope == scope && IsCallee(env.Of(scope), svc, target))
    || (calleeScope == GLOBAL && scope != GLOBAL && IsCallee(env.global, svc, target)
        && !(exists own :: IsCallee(env.Of(scope), own, target)))
  }

  /** The direction rules: a region's callee is called from its region, a global callee from anywhere the caller
      exists. */
  predicate MayCall(env: Env, callerScope: string, caller: string, calleeScope: string) {
    if caller == GATEWAY || calleeScope != GLOBAL then callerScope == calleeScope
    else (callerScope == GLOBAL && caller in MeshMembers(env.global))
         || (callerScope in env.regions && caller in MeshMembers(env.regional))
  }

  ghost predicate Permitted(env: Env, matches: (string, string) -> bool, c: Caller, target: string, path: string,
                            calleeScope: string, svc: Service)
  {
    && ResolvesTo(env, c.scope, target, calleeScope, svc)
    && svc.pki != ""
    && c.name in svc.mesh.value.allowed && MayCall(env, c.scope, c.name, calleeScope)
    && (exists g | g in svc.mesh.value.publicPaths + svc.mesh.value.internalPaths :: matches(g, path))
    && InBundle(env, c.scope, c.host, svc.pki, calleeScope)
    && LeafPki(env, c.scope, c.host, c.name).Some?
    && InBundle(env, calleeScope, env.Of(calleeScope).canonical[svc.host], LeafPki(env, c.scope, c.host, c.name).value,
                c.scope)
  }

  // ---- What validation guarantees ----

  ghost predicate SetOk(res: Resources) {
    && (forall i, j | 0 <= i < j < |res.services| :: res.services[i].name != res.services[j].name)
    && (forall svc | svc in res.services :: SchemaName(svc.name) && svc.name != GATEWAY
          && (svc.mesh.Some? ==> forall a | a in svc.mesh.value.allowed :: SchemaName(a)))
  }

  ghost predicate EnvOk(env: Env) {
    GLOBAL !in env.regions && SetOk(env.regional) && SetOk(env.global)
  }

  // ---- Identities are unambiguous ----

  lemma NoSlash(s: string)
    requires SchemaName(s)
    ensures '/' !in s
  {
  }

  /** The name after the last slash of an identity. */
  function NameOf(id: string): string {
    if id == "" || id[|id| - 1] == '/' then "" else NameOf(id[..|id| - 1]) + [id[|id| - 1]]
  }

  lemma {:induction false} NameOfIdentity(scope: string, name: string)
    requires '/' !in name
    ensures NameOf(Identity(scope, name)) == name
    decreases |name|
  {
    var id := Identity(scope, name);
    if name != "" {
      var front := name[..|name| - 1];
      assert id[|id| - 1] == name[|name| - 1] && name[|name| - 1] in name;
      assert id[..|id| - 1] == Identity(scope, front);
      NameOfIdentity(scope, front);
      assert name == front + [name[|name| - 1]];
    }
  }

  lemma IdentityInjective(a: string, m: string, b: string, n: string)
    requires '/' !in m && '/' !in n && Identity(a, m) == Identity(b, n)
    ensures a == b && m == n
  {
    NameOfIdentity(a, m);
    NameOfIdentity(b, n);
    assert a == Identity(a, m)[..|a|] && b == Identity(b, n)[..|b|];
  }

  /** The expanded allow list holds a caller's identity exactly when the name is authored and the direction allowed. */
  lemma AllowedExactly(env: Env, calleeScope: string, allowed: seq<string>, c: Caller)
    requires GLOBAL !in env.regions && SchemaName(c.name) && (forall a | a in allowed :: SchemaName(a))
    requires c.scope == GLOBAL || c.scope in env.regions
    requires calleeScope == GLOBAL || calleeScope in env.regions
    ensures Identity(c.scope, c.name) in AllowedAt(env, calleeScope, allowed) <==>
      c.name in allowed && MayCall(env, c.scope, c.name, calleeScope)
  {
    var rm, gm := MeshMembers(env.regional), MeshMembers(env.global);
    var id := Identity(c.scope, c.name);
    NoSlash(c.name);
    NoSlash(GATEWAY);
    if id in AllowedAt(env, calleeScope, allowed) {
      var name :| name in allowed && id in IdentitiesOf(name, calleeScope, env.regions, rm, gm);
      NoSlash(name);
      var s :| id == Identity(s, name) && (s == calleeScope || s in env.regions || s == GLOBAL)
        && (name == GATEWAY || calleeScope != GLOBAL ==> s == calleeScope);
      IdentityInjective(c.scope, c.name, s, name);
      if name != GATEWAY && calleeScope == GLOBAL {
        if name in rm && id in (set r | r in env.regions :: Identity(r, name)) {
          var r :| r in env.regions && id == Identity(r, name);
          IdentityInjective(c.scope, c.name, r, name);
        } else {
          IdentityInjective(c.scope, c.name, GLOBAL, name);
        }
      }
    }
    if c.name in allowed && MayCall(env, c.scope, c.name, calleeScope) {
      assert id in IdentitiesOf(c.name, calleeScope, env.regions, rm, gm);
    }
  }

  // ---- The hops, one by one ----

  lemma {:induction false} ListenerIs(egress: seq<EgressCaller>, i: nat)
    requires i < |egress| && forall j | 0 <= j < i :: egress[j].port != egress[i].port
    ensures ListenerOn(egress, egress[i].port) == Some(egress[i])
    decreases i
  {
    if i > 0 { ListenerIs(egress[1..], i - 1); }
  }

  /** The port a member dials is its own listener, so the presented leaf is its own. */
  lemma DialsOwnListener(env: Env, c: Caller)
    requires IsCaller(env, c) && |Members(env.Of(c.scope), c.host)| <= MAX_SERVICES
    ensures var l := ListenerOn(EgressOn(env.Of(c.scope), c.host), DialledPort(env, c));
      l.Some? && l.value.name == c.name
  {
    var res := env.Of(c.scope);
    var members := Members(res, c.host);
    var egress := EgressOn(res, c.host);
    forall i | 0 <= i < |members|
      ensures |EgressOfMembers(members, 0)| == |members| && egress[i] == EgressCaller(members[i].name, EgressPort(i))
    {
      EgressOfMembersAt(members, 0, i);
    }
    if c.name == GATEWAY {
      assert egress[|members|] == EgressCaller(GATEWAY, GATEWAY_EGRESS_PORT) by {
        if members != [] { EgressOfMembersAt(members, 0, 0); }
      }
      ListenerIs(egress, |members|);
    } else {
      var i := IndexOf(members, c.name).value;
      ListenerIs(egress, i);
    }
  }

  /** The port injected as a service's mesh URL, from the one map over all hosts, is the one it dials on its host. */
  lemma DialsInjectedPort(env: Env, c: Caller, ports: map<string, nat>)
    requires EnvOk(env) && IsCaller(env, c) && c.name != GATEWAY
          && PortsAre(env.Of(c.scope), MemberHosts(env.Of(c.scope)), ports)
    ensures c.name in ports && ports[c.name] == DialledPort(env, c)
  {
    var res := env.Of(c.scope);
    PortNeedsHost(res, c.host, c.name);
    assert PortAmong(res, MemberHosts(res), c.name, DialledPort(env, c));
  }

  /** Past the range the gateway's fixed port is a service's: the bound is exactly the reserved range. */
  lemma GatewayPortFreeIff(n: nat)
    ensures (forall i: nat | i < n :: EgressPort(i) != GATEWAY_EGRESS_PORT) <==> n <= MAX_SERVICES
  {
    if n > MAX_SERVICES { assert EgressPort(MAX_SERVICES) == GATEWAY_EGRESS_PORT; }
  }

  lemma {:induction false} IndexOfUnique(services: seq<Service>, svc: Service)
    requires svc in services
    requires forall m | m in services && m.name == svc.name :: m == svc
    ensures FindMember(services, svc.name) == Some(svc)
    decreases |services|
  {
    var i := IndexOf(services, svc.name);
    assert i.Some?;
  }

  lemma UniqueByName(res: Resources, a: Service, b: Service)
    requires SetOk(res) && a in res.services && b in res.services && a.name == b.name
    ensures a == b
  {
    var i :| 0 <= i < |res.services| && res.services[i] == a;
    var j :| 0 <= j < |res.services| && res.services[j] == b;
  }

  lemma TargetResolves(env: Env, scope: string, target: string)
    requires EnvOk(env)
    ensures var t := TargetFor(env, scope, target);
      t.Some? ==>
        var cs := if t.value.isGlobal then GLOBAL else scope;
        && t.value.sni == DNSName(cs, target)
        && exists svc :: ResolvesTo(env, scope, target, cs, svc) && env.Of(cs).canonical[svc.host] == t.value.host
    ensures forall cs, svc | ResolvesTo(env, scope, target, cs, svc) ::
      && TargetFor(env, scope, target) ==
           Some(Target(target, DNSName(cs, target), env.Of(cs).canonical[svc.host], cs != scope))
  {
    var res := env.Of(scope);
    var own := FindCallee(res.services, res.canonical, target);
    var far := FindCallee(env.global.services, env.global.canonical, target);
    if own.Some? {
      assert IsCallee(res, own.value, target);
      assert ResolvesTo(env, scope, target, scope, own.value);
    } else if scope != GLOBAL && far.Some? {
      assert ResolvesTo(env, scope, target, GLOBAL, far.value);
    }
    forall cs, svc | ResolvesTo(env, scope, target, cs, svc)
      ensures TargetFor(env, scope, target) ==
        Some(Target(target, DNSName(cs, target), env.Of(cs).canonical[svc.host], cs != scope))
    {
      if cs == scope && IsCallee(res, svc, target) {
        UniqueByName(res, svc, own.value);
      } else {
        UniqueByName(env.global, svc, far.value);
      }
    }
  }

  lemma DNSNameInjective(scope: string, a: string, b: string)
    requires DNSName(scope, a) == DNSName(scope, b)
    ensures a == b
  {
    var x, y := DNSName(scope, a), DNSName(scope, b);
    assert |a| == |x| - |scope| - 6 == |b|;
    assert a == x[..|a|] && b == y[..|b|];
  }

  function LocalOf(env: Env, scope: string, svc: Service): LocalService
    requires svc.mesh.Some?
  {
    LocalService(svc.name, DNSName(scope, svc.name), svc.mesh.value.port, AllowedAt(env, scope, svc.mesh.value.allowed),
                 svc.mesh.value.publicPaths + svc.mesh.value.internalPaths)
  }

  lemma {:induction false} LocalsAre(env: Env, scope: string, members: seq<Service>)
    ensures forall l :: l in LocalsOf(env, scope, members) <==>
      exists m :: m in members && m.mesh.Some? && l == LocalOf(env, scope, m)
    decreases |members|
  {
    if members != [] {
      LocalsAre(env, scope, members[1..]);
      var rest := LocalsOf(env, scope, members[1..]);
      forall l ensures l in LocalsOf(env, scope, members) <==>
        exists m :: m in members && m.mesh.Some? && l == LocalOf(env, scope, m)
      {
        assert l in LocalsOf(env, scope, members) <==>
          (members[0].mesh.Some? && l == LocalOf(env, scope, members[0])) || l in rest;
        assert forall m :: m in members <==> m == members[0] || m in members[1..];
      }
    }
  }

  lemma {:induction false} ServerForMember(locals: seq<LocalService>, sni: string)
    ensures match ServerFor(locals, sni)
      case Some(l) => l in locals && l.sni == sni
      case None => forall l | l in locals :: l.sni != sni
    decreases |locals|
  {
    if locals != [] { ServerForMember(locals[1..], sni); }
  }

  lemma {:induction false} LastBlockMember(locals: seq<LocalService>, variable: string)
    ensures match LastBlock(locals, variable)
      case Some(l) => l in locals && AllowVarName(l.name) == variable
      case None => forall l | l in locals :: AllowVarName(l.name) != variable
    decreases |locals|
  {
    if locals != [] {
      LastBlockMember(locals[..|locals| - 1], variable);
      assert locals == locals[..|locals| - 1] + [locals[|locals| - 1]];
    }
  }

  /** The TLS server a target's SNI selects on its host is that callee's, when it is a mesh member. */
  lemma ServerIs(env: Env, scope: string, host: string, target: string)
    requires EnvOk(env)
    ensures match ServerFor(LocalsOn(env, scope, host), DNSName(scope, target))
      case Some(l) =>
        exists m :: MemberOn(env.Of(scope), m, host) && m.name == target && m.mesh.Some? && l == LocalOf(env, scope, m)
      case None => forall m | MemberOn(env.Of(scope), m, host) && m.mesh.Some? :: m.name != target
  {
    var members := Members(env.Of(scope), host);
    var locals := LocalsOn(env, scope, host);
    LocalsAre(env, scope, members);
    ServerForMember(locals, DNSName(scope, target));
    match ServerFor(locals, DNSName(scope, target))
    case Some(l) =>
      var m :| m in members && m.mesh.Some? && l == LocalOf(env, scope, m);
      DNSNameInjective(scope, m.name, target);
      assert MemberOn(env.Of(scope), m, host);
    case None =>
      forall m | MemberOn(env.Of(scope), m, host) && m.mesh.Some? ensures m.name != target {
        assert m in members;
        assert LocalOf(env, scope, m) in locals;
      }
  }

  // ---- The whole path ----

  /** What the compiled mesh does with a request to a resolved callee, with no hypothesis on variables: both bundles, a
      matching path, and whatever the callee's allow map says. */
  lemma ReachesIff(env: Env, matches: (string, string) -> bool, c: Caller, target: string, path: string, cs: string,
                   svc: Service)
    requires EnvOk(env) && IsCaller(env, c) && |Members(env.Of(c.scope), c.host)| <= MAX_SERVICES
    requires ResolvesTo(env, c.scope, target, cs, svc) && svc.pki != ""
    ensures var host := env.Of(cs).canonical[svc.host];
      var o := Evaluate(env, matches, c, target, path);
      if && InBundle(env, c.scope, c.host, svc.pki, cs)
         && InBundle(env, cs, host, LeafPki(env, c.scope, c.host, c.name).value, c.scope)
         && (exists g | g in svc.mesh.value.publicPaths + svc.mesh.value.internalPaths :: matches(g, path))
         && Allow(LocalsOn(env, cs, host), target, Identity(c.scope, c.name))
      then o == Reached(cs, host, target, svc.mesh.value.port, Identity(c.scope, c.name))
      else o == Refused
  {
    ReachesServer(env, matches, c, target, path, cs, svc);
    LeafPkiOfMember(env, cs, env.Of(cs).canonical[svc.host], svc);
  }

  /** Up to the callee's server nothing refuses. */
  lemma ReachesServer(env: Env, matches: (string, string) -> bool, c: Caller, target: string, path: string, cs: string,
                      svc: Service)
    requires EnvOk(env) && IsCaller(env, c) && |Members(env.Of(c.scope), c.host)| <= MAX_SERVICES
    requires ResolvesTo(env, c.scope, target, cs, svc) && svc.pki != ""
    ensures Evaluate(env, matches, c, target, path)
         == Answer(env, matches, c, c.name, cs, env.Of(cs).canonical[svc.host], LocalOf(env, cs, svc), path)
  {
    DialsOwnListener(env, c);
    TargetResolves(env, c.scope, target);
    ServerOfCallee(env, cs, env.Of(cs).canonical[svc.host], svc);
  }

  /** The callee's own server answers its name on its host. */
  lemma ServerOfCallee(env: Env, scope: string, host: string, svc: Service)
    requires EnvOk(env) && MemberOn(env.Of(scope), svc, host) && svc.mesh.Some?
    ensures ServerFor(LocalsOn(env, scope, host), DNSName(scope, svc.name)) == Some(LocalOf(env, scope, svc))
  {
    ServerIs(env, scope, host, svc.name);
    var server := ServerFor(LocalsOn(env, scope, host), DNSName(scope, svc.name)).value;
    var m :| MemberOn(env.Of(scope), m, host) && m.name == svc.name && m.mesh.Some? && server == LocalOf(env, scope, m);
    UniqueByName(env.Of(scope), m, svc);
  }

  lemma LeafPkiOfMember(env: Env, scope: string, host: string, svc: Service)
    requires EnvOk(env) && MemberOn(env.Of(scope), svc, host)
    ensures LeafPki(env, scope, host, svc.name) == Some(svc.pki)
  {
    var members := Members(env.Of(scope), host);
    assert svc in members;
    forall m | m in members && m.name == svc.name ensures m == svc { UniqueByName(env.Of(scope), m, svc); }
    IndexOfUnique(members, svc);
  }

  lemma CallerName(env: Env, c: Caller)
    requires EnvOk(env) && IsCaller(env, c)
    ensures SchemaName(c.name)
  {
    if c.name != GATEWAY {
      var i := IndexOf(Members(env.Of(c.scope), c.host), c.name).value;
      var m := Members(env.Of(c.scope), c.host)[i];
      assert m in Members(env.Of(c.scope), c.host);
      assert m in env.Of(c.scope).services;
    }
  }

  lemma ReachedIsResolved(env: Env, matches: (string, string) -> bool, c: Caller, target: string, path: string)
    requires EnvOk(env)
    ensures Evaluate(env, matches, c, target, path).Reached? ==>
      exists cs, svc :: ResolvesTo(env, c.scope, target, cs, svc) && svc.pki != ""
  {
    if !Evaluate(env, matches, c, target, path).Reached? { return; }
    TargetResolves(env, c.scope, target);
    var t := TargetFor(env, c.scope, target).value;
    var cs := if t.isGlobal then GLOBAL else c.scope;
    var svc :| ResolvesTo(env, c.scope, target, cs, svc) && env.Of(cs).canonical[svc.host] == t.host;
    ServerIs(env, cs, t.host, target);
    var server := ServerFor(LocalsOn(env, cs, t.host), t.sni).value;
    var m :| MemberOn(env.Of(cs), m, t.host) && m.name == target && m.mesh.Some? && server == LocalOf(env, cs, m);
    UniqueByName(env.Of(cs), m, svc);
  }

  /** When both ends belong to one PKI, resolving a target already means both bundles cover the other end. */
  lemma OnePkiIsTrusted(env: Env, c: Caller, target: string, cs: string, svc: Service)
    requires EnvOk(env) && IsCaller(env, c) && ResolvesTo(env, c.scope, target, cs, svc)
    requires svc.pki != "" && LeafPki(env, c.scope, c.host, c.name) == Some(svc.pki)
    ensures InBundle(env, c.scope, c.host, svc.pki, cs)
    ensures InBundle(env, cs, env.Of(cs).canonical[svc.host], svc.pki, c.scope)
  {
    TrustIsMutual(c.scope, cs, env.regions);
    assert svc in Members(env.Of(cs), env.Of(cs).canonical[svc.host]);
    if c.name != GATEWAY {
      var members := Members(env.Of(c.scope), c.host);
      assert members[IndexOf(members, c.name).value] in members;
    }
  }

  /** No call crosses two regions, and none goes from global into a region: with no hypothesis on the resource sets. */
  lemma RegionalBoundary(env: Env, matches: (string, string) -> bool, c: Caller, target: string, path: string)
    ensures var o := Evaluate(env, matches, c, target, path);
      o.Reached? ==> o.scope == c.scope || (o.scope == GLOBAL && c.scope != GLOBAL)
  {
  }
}
