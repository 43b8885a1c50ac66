/** The compiled mesh against the authored policy, and exactly where a shared nginx variable parts them. */
module MeshPolicy {
  import opened Common
  import opened Mesh
  import opened MeshProxy

  // ---- Whose list decides ----

  /** The callee whose list an allow variable ends up with: the last one on the host to define it. */
  function LastCallee(members: seq<Service>, variable: string): (r: Option<Service>)
    ensures r.Some? ==> r.value in members && r.value.mesh.Some? && AllowVarName(r.value.name) == variable
    ensures r.None? ==> forall m | m in members && m.mesh.Some? :: AllowVarName(m.name) != variable
  {
    if members == [] then None
    else
      var last := members[|members| - 1];
      assert members == members[..|members| - 1] + [last];
      if last.mesh.Some? && AllowVarName(last.name) == variable then Some(last)
      else LastCallee(members[..|members| - 1], variable)
  }

  lemma {:induction false} LocalsSnoc(env: Env, scope: string, front: seq<Service>, last: Service)
    ensures LocalsOf(env, scope, front + [last])
         == LocalsOf(env, scope, front) + (if last.mesh.Some? then [LocalOf(env, scope, last)] else [])
    decreases |front|
  {
    if front == [] {
      assert front + [last] == [last] && [last][1..] == [];
    } else {
      LocalsSnoc(env, scope, front[1..], last);
      assert (front + [last])[1..] == front[1..] + [last];
    }
  }

  lemma {:induction false} LastBlockIs(env: Env, scope: string, members: seq<Service>, variable: string)
    ensures LastBlock(LocalsOf(env, scope, members), variable) ==
      match LastCallee(members, variable) case Some(m) => Some(LocalOf(env, scope, m)) case None => None
    decreases |members|
  {
    if members != [] {
      var front, last := members[..|members| - 1], members[|members| - 1];
      assert members == front + [last];
      LocalsSnoc(env, scope, front, last);
      LastBlockIs(env, scope, front, variable);
      if last.mesh.Some? {
        var locals := LocalsOf(env, scope, members);
        assert locals[..|locals| - 1] == LocalsOf(env, scope, front);
      } else {
        assert LocalsOf(env, scope, members) == LocalsOf(env, scope, front);
      }
    }
  }

  /** The callee whose authored list decides who may call this one. */
  function Deciding(env: Env, scope: string, host: string, svc: Service): (r: Service)
    requires MemberOn(env.Of(scope), svc, host) && svc.mesh.Some?
    ensures r.mesh.Some? && MemberOn(env.Of(scope), r, host) && AllowVarName(r.name) == AllowVarName(svc.name)
  {
    LastCallee(Members(env.Of(scope), host), AllowVarName(svc.name)).value
  }

  /** A list admits a caller: it names it, and the direction is allowed. */
  predicate Admits(env: Env, c: Caller, calleeScope: string, allowed: seq<string>) {
    c.name in allowed && MayCall(env, c.scope, c.name, calleeScope)
  }

  lemma AllowIsDeciding(env: Env, scope: string, host: string, svc: Service, c: Caller)
    requires EnvOk(env) && IsCaller(env, c) && (scope == GLOBAL || scope in env.regions)
    requires MemberOn(env.Of(scope), svc, host) && svc.mesh.Some?
    ensures Allow(LocalsOn(env, scope, host), svc.name, Identity(c.scope, c.name))
       <==> Admits(env, c, scope, Deciding(env, scope, host, svc).mesh.value.allowed)
  {
    var d := Deciding(env, scope, host, svc);
    LastBlockIs(env, scope, Members(env.Of(scope), host), AllowVarName(svc.name));
    CallerName(env, c);
    AllowedExactly(env, scope, d.mesh.value.allowed, c);
  }

  // ---- The main theorem ----

  /** The trust, the bundles and the path of a request: everything but the allow list. */
  ghost predicate Passes(env: Env, matches: (string, string) -> bool, c: Caller, path: string, cs: string, svc: Service)
    requires svc.mesh.Some? && svc.host in env.Of(cs).canonical
  {
    && InBundle(env, c.scope, c.host, svc.pki, cs)
    && LeafPki(env, c.scope, c.host, c.name).Some?
    && InBundle(env, cs, env.Of(cs).canonical[svc.host], LeafPki(env, c.scope, c.host, c.name).value, c.scope)
    && (exists g | g in svc.mesh.value.publicPaths + svc.mesh.value.internalPaths :: matches(g, path))
  }

  /** For this caller the deciding list says what the callee's own list says, or nothing hangs on it. */
  ghost predicate ListKept(env: Env, matches: (string, string) -> bool, c: Caller, path: string, cs: string,
                           svc: Service)
    requires svc.mesh.Some? && svc.host in env.Of(cs).canonical
          && MemberOn(env.Of(cs), svc, env.Of(cs).canonical[svc.host])
  {
    Passes(env, matches, c, path, cs, svc) && MayCall(env, c.scope, c.name, cs) ==>
      (c.name in Deciding(env, cs, env.Of(cs).canonical[svc.host], svc).mesh.value.allowed
       <==> c.name in svc.mesh.value.allowed)
  }

  function PolicyOutcome(env: Env, c: Caller, target: string, cs: string, svc: Service): Outcome
    requires svc.mesh.Some? && svc.host in env.Of(cs).canonical
  {
    Reached(cs, env.Of(cs).canonical[svc.host], target, svc.mesh.value.port, Identity(c.scope, c.name))
  }

  /** What a request to a resolved callee does, with no hypothesis on names: it gets through exactly when everything
      else passes and the deciding list admits the caller, and then to that callee with the caller's true identity. */
  lemma RequestIff(env: Env, matches: (string, string) -> bool, c: Caller, target: string, path: string, cs: string,
                   svc: Service)
    requires EnvOk(env) && IsCaller(env, c) && |Members(env.Of(c.scope), c.host)| <= MAX_SERVICES
    requires ResolvesTo(env, c.scope, target, cs, svc) && svc.pki != ""
    ensures Evaluate(env, matches, c, target, path) ==
      if Passes(env, matches, c, path, cs, svc)
         && Admits(env, c, cs, Deciding(env, cs, env.Of(cs).canonical[svc.host], svc).mesh.value.allowed)
      then PolicyOutcome(env, c, target, cs, svc) else Refused
  {
    ReachesIff(env, matches, c, target, path, cs, svc);
    AllowIsDeciding(env, cs, env.Of(cs).canonical[svc.host], svc, c);
  }

  /** A request to a resolved callee has the outcome the policy gives it exactly when the deciding list agrees about its
      caller. */
  lemma PolicyKeptIff(env: Env, matches: (string, string) -> bool, c: Caller, target: string, path: string, cs: string,
                      svc: Service)
    requires EnvOk(env) && IsCaller(env, c) && |Members(env.Of(c.scope), c.host)| <= MAX_SERVICES
    requires ResolvesTo(env, c.scope, target, cs, svc) && svc.pki != ""
    ensures Evaluate(env, matches, c, target, path)
            == (if Permitted(env, matches, c, target, path, cs, svc) then PolicyOutcome(env, c, target, cs, svc)
             else Refused)
       <==> ListKept(env, matches, c, path, cs, svc)
    ensures (Evaluate(env, matches, c, target, path).Reached? <==> Permitted(env, matches, c, target, path, cs, svc))
       <==> ListKept(env, matches, c, path, cs, svc)
  {
    RequestIff(env, matches, c, target, path, cs, svc);
  }

  /** The compiled mesh preserves the authored policy, that is a request reaches a mesh port exactly when some callee
      its target resolves to permits it, exactly when the deciding list of that callee agrees about the caller. */
  lemma MeshPreservesPolicyIff(env: Env, matches: (string, string) -> bool, c: Caller, target: string, path: string)
    requires EnvOk(env) && IsCaller(env, c) && |Members(env.Of(c.scope), c.host)| <= MAX_SERVICES
    ensures (Evaluate(env, matches, c, target, path).Reached?
             <==> exists cs, svc :: Permitted(env, matches, c, target, path, cs, svc))
       <==> forall cs, svc | ResolvesTo(env, c.scope, target, cs, svc) && svc.pki != "" ::
         ListKept(env, matches, c, path, cs, svc)
  {
    if cs, svc :| ResolvesTo(env, c.scope, target, cs, svc) && svc.pki != "" {
      PolicyKeptIff(env, matches, c, target, path, cs, svc);
      OnlyCallee(env, matches, c, target, path, cs, svc);
    } else {
      ReachedIsResolved(env, matches, c, target, path);
    }
  }

  lemma OnlyCallee(env: Env, matches: (string, string) -> bool, c: Caller, target: string, path: string, cs: string,
                   svc: Service)
    requires EnvOk(env) && ResolvesTo(env, c.scope, target, cs, svc) && svc.pki != ""
    ensures (exists a, x :: Permitted(env, matches, c, target, path, a, x)) <==>
      Permitted(env, matches, c, target, path, cs, svc)
    ensures (forall a, x | ResolvesTo(env, c.scope, target, a, x) && x.pki != "" ::
               ListKept(env, matches, c, path, a, x))
       <==> ListKept(env, matches, c, path, cs, svc)
  {
    forall a, x | ResolvesTo(env, c.scope, target, a, x) ensures a == cs && x == svc {
      OneCallee(env, c.scope, target, cs, svc, a, x);
    }
  }

  lemma OneCallee(env: Env, scope: string, target: string, a: string, x: Service, b: string, y: Service)
    requires EnvOk(env) && ResolvesTo(env, scope, target, a, x) && ResolvesTo(env, scope, target, b, y)
    ensures a == b && x == y
  {
    UniqueByName(env.Of(a), x, if a == b then y else x);
  }

  // ---- When the lists agree ----

  /** No co-located callee shares the allow variable. */
  ghost predicate OwnVariable(env: Env, scope: string, host: string, name: string) {
    forall m | m in Members(env.Of(scope), host) && m.mesh.Some? && m.name != name ::
      AllowVarName(m.name) != AllowVarName(name)
  }

  /** A callee with a variable of its own decides for itself, so every request to it keeps the policy. */
  lemma OwnVariableKeeps(env: Env, scope: string, host: string, svc: Service)
    requires EnvOk(env) && MemberOn(env.Of(scope), svc, host) && svc.mesh.Some?
          && OwnVariable(env, scope, host, svc.name)
    ensures Deciding(env, scope, host, svc) == svc
  {
    var d := Deciding(env, scope, host, svc);
    assert d in Members(env.Of(scope), host);
    UniqueByName(env.Of(scope), d, svc);
  }

  /** Names without underscores need no further hypothesis about variables. */
  lemma DashNamesOwnVariables(env: Env, scope: string, host: string, name: string)
    requires EnvOk(env) && SchemaName(name) && '_' !in name
    requires forall m | m in Members(env.Of(scope), host) :: '_' !in m.name
    ensures OwnVariable(env, scope, host, name)
  {
    forall m | m in Members(env.Of(scope), host) && m.mesh.Some? && m.name != name
      ensures AllowVarName(m.name) != AllowVarName(name)
    {
      AllowVarInjective(m.name, name);
    }
  }

  /** Some caller may go by this name at a callee of the scope. */
  predicate StandsForSomeone(env: Env, scope: string, name: string) {
    name == GATEWAY || scope != GLOBAL || (name in MeshMembers(env.regional) && env.regions != [])
      || name in MeshMembers(env.global)
  }

  lemma StandsForSomeoneIff(env: Env, scope: string, name: string)
    ensures StandsForSomeone(env, scope, name)
       <==> exists id ::
         id in IdentitiesOf(name, scope, env.regions, MeshMembers(env.regional), MeshMembers(env.global))
  {
    var ids := IdentitiesOf(name, scope, env.regions, MeshMembers(env.regional), MeshMembers(env.global));
    if name == GATEWAY || scope != GLOBAL {
      assert Identity(scope, name) in ids;
    } else if name in MeshMembers(env.regional) && env.regions != [] {
      assert env.regions[0] in env.regions;
      assert Identity(env.regions[0], name) in ids;
    } else if name in MeshMembers(env.global) {
      assert Identity(GLOBAL, name) in ids;
    }
  }

  /** Two authored names never stand for the same caller. */
  lemma NamesApart(env: Env, scope: string, a: string, b: string, id: string)
    requires SchemaName(a) && SchemaName(b)
    requires id in IdentitiesOf(a, scope, env.regions, MeshMembers(env.regional), MeshMembers(env.global))
    requires id in IdentitiesOf(b, scope, env.regions, MeshMembers(env.regional), MeshMembers(env.global))
    ensures a == b
  {
    NoSlash(a);
    NoSlash(b);
    NoSlash(GATEWAY);
    var s :| id == Identity(s, a);
    var t :| id == Identity(t, b);
    IdentityInjective(s, a, t, b);
  }

  /** The two lists name the same callers: whoever a name stands for, both author it or neither does. */
  ghost predicate SameCallers(env: Env, scope: string, a: seq<string>, b: seq<string>) {
    forall name | StandsForSomeone(env, scope, name) :: name in a <==> name in b
  }

  /** Two authored lists expand to one allow map exactly when they name the same callers. */
  lemma SameListIff(env: Env, scope: string, a: seq<string>, b: seq<string>)
    requires forall n | n in a + b :: SchemaName(n)
    ensures AllowedAt(env, scope, a) == AllowedAt(env, scope, b) <==> SameCallers(env, scope, a, b)
  {
    if AllowedAt(env, scope, a) == AllowedAt(env, scope, b) {
      forall name | StandsForSomeone(env, scope, name) ensures name in a <==> name in b {
        if name in a { ListedInBoth(env, scope, a, b, name); }
        if name in b { ListedInBoth(env, scope, b, a, name); }
      }
    }
    if SameCallers(env, scope, a, b) {
      forall id ensures id in AllowedAt(env, scope, a) <==> id in AllowedAt(env, scope, b) {
        if id in AllowedAt(env, scope, a) { AllowedInBoth(env, scope, a, b, id); }
        if id in AllowedAt(env, scope, b) { AllowedInBoth(env, scope, b, a, id); }
      }
    }
  }

  lemma ListedInBoth(env: Env, scope: string, a: seq<string>, b: seq<string>, name: string)
    requires (forall n | n in a :: SchemaName(n)) && (forall n | n in b :: SchemaName(n))
    requires AllowedAt(env, scope, a) == AllowedAt(env, scope, b) && StandsForSomeone(env, scope, name) && name in a
    ensures name in b
  {
    StandsForSomeoneIff(env, scope, name);
    var id :| id in IdentitiesOf(name, scope, env.regions, MeshMembers(env.regional), MeshMembers(env.global));
    assert id in AllowedAt(env, scope, b);
    var other :| other in b
      && id in IdentitiesOf(other, scope, env.regions, MeshMembers(env.regional), MeshMembers(env.global));
    NamesApart(env, scope, name, other, id);
  }

  lemma AllowedInBoth(env: Env, scope: string, a: seq<string>, b: seq<string>, id: string)
    requires SameCallers(env, scope, a, b) && id in AllowedAt(env, scope, a)
    ensures id in AllowedAt(env, scope, b)
  {
    var name :| name in a
      && id in IdentitiesOf(name, scope, env.regions, MeshMembers(env.regional), MeshMembers(env.global));
    StandsForSomeoneIff(env, scope, name);
    assert name in b;
  }

  /** A callee keeps its own allow map exactly when the deciding callee names the same callers; in a region, when it
      authors the same names. */
  lemma ClashExact(env: Env, scope: string, host: string, svc: Service)
    requires EnvOk(env) && MemberOn(env.Of(scope), svc, host) && svc.mesh.Some?
    ensures var d := Deciding(env, scope, host, svc);
      (forall id :: Allow(LocalsOn(env, scope, host), svc.name, id)
               <==> id in AllowedAt(env, scope, svc.mesh.value.allowed))
      <==> if scope == GLOBAL then SameCallers(env, scope, d.mesh.value.allowed, svc.mesh.value.allowed)
           else forall name :: name in d.mesh.value.allowed <==> name in svc.mesh.value.allowed
  {
    var d := Deciding(env, scope, host, svc);
    var own, deciding := svc.mesh.value.allowed, d.mesh.value.allowed;
    LastBlockIs(env, scope, Members(env.Of(scope), host), AllowVarName(svc.name));
    assert forall id :: Allow(LocalsOn(env, scope, host), svc.name, id) <==> id in AllowedAt(env, scope, deciding);
    SameListIff(env, scope, deciding, own);
    if scope != GLOBAL { assert forall name :: StandsForSomeone(env, scope, name); }
  }

  // ---- Where they do not ----

  /** A request that could reach the callee if its list admits the caller. */
  ghost predicate Ready(env: Env, matches: (string, string) -> bool, c: Caller, path: string, cs: string, svc: Service)
  {
    && IsCaller(env, c) && |Members(env.Of(c.scope), c.host)| <= MAX_SERVICES
    && ResolvesTo(env, c.scope, svc.name, cs, svc) && svc.pki != ""
    && Passes(env, matches, c, path, cs, svc) && MayCall(env, c.scope, c.name, cs)
  }

  /** The policy permits this caller and the mesh refuses it. */
  ghost predicate WronglyRefused(env: Env, matches: (string, string) -> bool, c: Caller, path: string, cs: string,
                                 svc: Service)
  {
    Permitted(env, matches, c, svc.name, path, cs, svc) && Evaluate(env, matches, c, svc.name, path) == Refused
  }

  /** The mesh lets this caller in and the policy does not. */
  ghost predicate WronglyAdmitted(env: Env, matches: (string, string) -> bool, c: Caller, path: string, target: string)
  {
    && Evaluate(env, matches, c, target, path).Reached?
    && !(exists cs, svc :: Permitted(env, matches, c, target, path, cs, svc))
  }

  /** When another callee on the host decides for this one, a caller only this one lists is wrongly refused. */
  lemma ClashRefuses(env: Env, matches: (string, string) -> bool, path: string, cs: string, svc: Service, c: Caller)
    requires EnvOk(env) && Ready(env, matches, c, path, cs, svc) && c.name in svc.mesh.value.allowed
    requires c.name !in Deciding(env, cs, env.Of(cs).canonical[svc.host], svc).mesh.value.allowed
    ensures WronglyRefused(env, matches, c, path, cs, svc)
  {
    RequestIff(env, matches, c, svc.name, path, cs, svc);
  }

  /** And a caller only the other lists is wrongly admitted. */
  lemma ClashAdmits(env: Env, matches: (string, string) -> bool, path: string, cs: string, svc: Service, c: Caller)
    requires EnvOk(env) && Ready(env, matches, c, path, cs, svc) && c.name !in svc.mesh.value.allowed
    requires c.name in Deciding(env, cs, env.Of(cs).canonical[svc.host], svc).mesh.value.allowed
    ensures WronglyAdmitted(env, matches, c, path, svc.name)
  {
    RequestIff(env, matches, c, svc.name, path, cs, svc);
    OnlyCallee(env, matches, c, svc.name, path, cs, svc);
  }

  /** Of two callees with one variable, and no third, the one later in name order decides. */
  lemma LaterDecides(env: Env, scope: string, host: string, a: Service, b: Service)
    requires EnvOk(env) && MemberOn(env.Of(scope), a, host) && a.mesh.Some? && MemberOn(env.Of(scope), b, host)
          && b.mesh.Some?
    requires AllowVarName(a.name) == AllowVarName(b.name) && !StringLe(b.name, a.name)
    requires forall m | m in env.Of(scope).services && m.mesh.Some? :: m == a || m == b
    ensures Deciding(env, scope, host, a) == b
  {
    var members := Members(env.Of(scope), host);
    MembersAreByName(env.Of(scope).services, env.Of(scope).canonical, host);
    assert b in members;
    LastIsGreatest(members, AllowVarName(a.name), b);
  }

  lemma {:induction false} LastIsGreatest(members: seq<Service>, variable: string, m: Service)
    requires ByName(members) && m in members && m.mesh.Some? && AllowVarName(m.name) == variable
    ensures StringLe(m.name, LastCallee(members, variable).value.name)
    decreases |members|
  {
    var last := members[|members| - 1];
    var i :| 0 <= i < |members| && members[i] == m;
    if last.mesh.Some? && AllowVarName(last.name) == variable {
      if i == |members| - 1 { StringLeTotal(m.name, m.name); }
    } else {
      assert m == members[..|members| - 1][i];
      LastIsGreatest(members[..|members| - 1], variable, m);
    }
  }

  /** Four service names, of which two share a variable. */
  ghost predicate Clashing(a: string, b: string, x: string, y: string) {
    && SchemaName(a) && SchemaName(b) && SchemaName(x) && SchemaName(y) && GATEWAY !in {a, b, x, y}
    && a != b && a != x && a != y && b != x && b != y && x != y
    && AllowVarName(a) == AllowVarName(b) && !StringLe(b, a)
  }

  /** One host and one PKI: a callee `a` that lists `x`, a callee `b` that lists `y`, and the two callers. */
  function Portal(a: string, b: string, x: string, y: string): Env {
    Env(Resources([], [], map[]),
        Resources([CalleeFor(a, x), CalleeFor(b, y), Service(x, "h", "p", None), Service(y, "h", "p", None)], [],
                  map["h" := "h-01"]),
        [])
  }

  function CalleeFor(name: string, caller: string): Service {
    Service(name, "h", "p", Some(MeshBlock(8080, [caller], ["/"], [])))
  }

  lemma PortalOk(a: string, b: string, x: string, y: string)
    requires Clashing(a, b, x, y)
    ensures EnvOk(Portal(a, b, x, y))
  {
    var s := Portal(a, b, x, y).global.services;
    forall svc | svc in s ensures SchemaName(svc.name) && svc.name != GATEWAY
      && (svc.mesh.Some? ==> forall n | n in svc.mesh.value.allowed :: SchemaName(n))
    {
      assert svc == s[0] || svc == s[1] || svc == s[2] || svc == s[3];
    }
  }

  lemma PortalDecides(a: string, b: string, x: string, y: string)
    requires Clashing(a, b, x, y)
    ensures Decided(Portal(a, b, x, y), a, b, x, y)
  {
    PortalOk(a, b, x, y);
    var s := Portal(a, b, x, y).global.services;
    assert s[0] == CalleeFor(a, x) && s[1] == CalleeFor(b, y);
    LaterDecides(Portal(a, b, x, y), GLOBAL, "h-01", CalleeFor(a, x), CalleeFor(b, y));
  }

  lemma PortalCaller(a: string, b: string, x: string, y: string, name: string, matches: (string, string) -> bool,
                     path: string)
    requires Clashing(a, b, x, y) && (name == x || name == y) && matches("/", path)
    ensures Ready(Portal(a, b, x, y), matches, Caller(GLOBAL, "h-01", name), path, GLOBAL, CalleeFor(a, x))
  {
    var env, c := Portal(a, b, x, y), Caller(GLOBAL, "h-01", name);
    var s := env.global.services;
    var svc := if name == x then s[2] else s[3];
    PortalOk(a, b, x, y);
    assert svc in s && s[0] == CalleeFor(a, x) && s[0] in s;
    LeafPkiOfMember(env, GLOBAL, "h-01", svc);
    assert svc.name in MeshMembers(env.global);
    assert ResolvesTo(env, GLOBAL, a, GLOBAL, CalleeFor(a, x));
    OnePkiIsTrusted(env, c, a, GLOBAL, CalleeFor(a, x));
    assert CalleeFor(a, x).mesh.value.publicPaths[0] == "/";
  }

  /** The second callee decides for the first, which alone lists `x`. */
  lemma DecidedRefuses(env: Env, a: string, b: string, x: string, y: string, matches: (string, string) -> bool,
                       path: string)
    requires EnvOk(env) && x != y && Decided(env, a, b, x, y)
    requires Ready(env, matches, Caller(GLOBAL, "h-01", x), path, GLOBAL, CalleeFor(a, x))
    ensures WronglyRefused(env, matches, Caller(GLOBAL, "h-01", x), path, GLOBAL, CalleeFor(a, x))
  {
    ClashRefuses(env, matches, path, GLOBAL, CalleeFor(a, x), Caller(GLOBAL, "h-01", x));
  }

  lemma DecidedAdmits(env: Env, a: string, b: string, x: string, y: string, matches: (string, string) -> bool,
                      path: string)
    requires EnvOk(env) && x != y && Decided(env, a, b, x, y)
    requires Ready(env, matches, Caller(GLOBAL, "h-01", y), path, GLOBAL, CalleeFor(a, x))
    ensures WronglyAdmitted(env, matches, Caller(GLOBAL, "h-01", y), path, a)
  {
    ClashAdmits(env, matches, path, GLOBAL, CalleeFor(a, x), Caller(GLOBAL, "h-01", y));
  }

  ghost predicate Decided(env: Env, a: string, b: string, x: string, y: string) {
    && "h" in env.global.canonical && env.global.canonical["h"] == "h-01"
    && MemberOn(env.global, CalleeFor(a, x), "h-01")
    && Deciding(env, GLOBAL, "h-01", CalleeFor(a, x)) == CalleeFor(b, y)
  }

  /** Whatever two schema names share a variable, there are valid resources where the mesh refuses a caller the policy
      permits and admits one it does not. */
  lemma ClashBreaksPolicy(a: string, b: string, x: string, y: string, matches: (string, string) -> bool, path: string)
    requires Clashing(a, b, x, y) && matches("/", path)
    ensures EnvOk(Portal(a, b, x, y))
    ensures WronglyRefused(Portal(a, b, x, y), matches, Caller(GLOBAL, "h-01", x), path, GLOBAL, CalleeFor(a, x))
    ensures WronglyAdmitted(Portal(a, b, x, y), matches, Caller(GLOBAL, "h-01", y), path, a)
  {
    PortalOk(a, b, x, y);
    PortalDecides(a, b, x, y);
    PortalCaller(a, b, x, y, x, matches, path);
    PortalCaller(a, b, x, y, y, matches, path);
    DecidedRefuses(Portal(a, b, x, y), a, b, x, y, matches, path);
    DecidedAdmits(Portal(a, b, x, y), a, b, x, y, matches, path);
  }

  /** `a-b` and `a_b` are two such names. */
  lemma ClashingNames()
    ensures Clashing("a-b", "a_b", "x", "y")
  {
    AllowVarClashes();
    assert !StringLe("a_b", "a-b");
  }
}
