/** The scope loop of a deploy. */
module Deploy {
  import opened Common
  import opened Mesh
  import opened Dag
  import opened DeployOrder
  import opened DeployRun
  import opened DeployGoals
  import opened DeployDb
  import RoleNames

  ghost predicate ScopesIn(g: seq<Node>, done: set<string>) {
    forall i | 0 <= i < |g| :: g[i].cmd.scope in done
  }

  ghost predicate NoMonitors(g: seq<Node>, scope: string) {
    forall i | 0 <= i < |g| && g[i].cmd.kind.MonitorMint? :: g[i].cmd.scope != scope
  }

  /** No role is minted on a cluster after its monitor was registered. */
  ghost predicate NoLateMints(g: seq<Node>) {
    forall a, b | 0 <= a < |g| && 0 <= b < |g| && OnCluster(g[a].cmd, g[b].cmd) :: a < b
  }

  /** What a scope leaves behind: its mesh reloads, everything its databases need, every service's unit and files. */
  ghost predicate ScopeDeployed(g: seq<Node>, sc: Scope, otlp: bool) {
    MeshLive(g, sc) && DatabasesDeployed(g, sc, otlp) && AllDelivered(g, sc)
  }

  lemma ScopeDeployedGrows(g: seq<Node>, h: seq<Node>, sc: Scope, otlp: bool)
    requires g <= h && ScopeDeployed(g, sc, otlp)
    ensures ScopeDeployed(h, sc, otlp)
  {
    MeshLiveGrows(g, h, sc);
    DatabasesDeployedGrows(g, h, sc, otlp);
    AllDeliveredGrows(g, h, sc);
  }

  /** What a scope's roles are named after: its clusters, and service by service the databases granted. */
  function NamingScope(sc: Scope, env: string): RoleNames.Scope {
    RoleNames.Scope(env, sc.slug, Named(sc.clusters), Grantees(sc.grants))
  }

  function Named(clusters: seq<Cluster>): seq<string> {
    if clusters == [] then [] else [clusters[0].name] + Named(clusters[1..])
  }

  function Grantees(grants: seq<Grant>): seq<RoleNames.Service> {
    if grants == [] then [] else [RoleNames.Service(grants[0].service, [grants[0].database])] + Grantees(grants[1..])
  }

  ghost predicate RolesUsable(sc: Scope, env: string) {
    var naming := NamingScope(sc, env);
    RoleNames.Usable(naming, RoleNames.Claims(naming))
  }

  /** Everything a scope names is there: its hosts have outputs, its backups a bucket and a credential, its
      grants a database; and its role names are fit for Postgres. */
  ghost predicate ScopeOk(sc: Scope, settings: Settings, keys: set<Key>) {
    && MeshHosts(sc.res) <= sc.compute && ClustersPlaced(sc, |sc.clusters|) && BackupsPlaced(sc, settings)
    && RolesUsable(sc, settings.env) && TargetsIn(sc, |sc.grants|, keys)
    && forall svc | svc in sc.res.services :: Placed(sc, svc)
  }

  /** Before a scope: none of its commands exist, and nothing restarted that it would have to come before. */
  lemma FreshScope(g: seq<Node>, done: set<string>, key: string)
    requires ScopesIn(g, done) && key !in done && (key == GLOBAL ==> done == {})
    ensures NoneServed(g, key) && NoMints(g, key) && NoMonitors(g, key)
  {
  }

  lemma NoTails(g: seq<Node>, h: seq<Node>, done: set<string>, key: string)
    requires ScopesIn(g, done) && key !in done && Grew(MeshPass, key, g, h)
    ensures TailsAre(map[], h, key) && NoMints(h, key)
  {
    forall i | 0 <= i < |h| ensures h[i].cmd.scope == key ==> LaneOf(h[i].cmd) == Free {
      if i >= |g| { assert MayAdd(MeshPass, key, h[i].cmd); } else { assert h[i] == g[i]; }
    }
    forall o ensures LastIn(h, HostSetup(key, o)) == None { LastInIs(h, HostSetup(key, o)); }
  }

  /** Where a scope's passes stand: the graph only grew, by this scope's commands, with no late mint so far. */
  ghost predicate Within(g0: seq<Node>, g: seq<Node>, scopes: set<string>, key: string) {
    g0 <= g && ScopesIn(g, scopes) && NoMonitors(g, key) && (NoLateMints(g0) ==> NoLateMints(g))
  }

  /** Only the grant and monitor passes register mints. */
  lemma PassKeeps(pass: Pass, g0: seq<Node>, g: seq<Node>, h: seq<Node>, scopes: set<string>, key: string)
    requires Within(g0, g, scopes, key) && key in scopes && Grew(pass, key, g, h) && pass != GrantPass
          && pass != MonitorPass
    ensures Within(g0, h, scopes, key)
    ensures forall i | |g| <= i < |h| :: !h[i].cmd.kind.Mint?
  {
    forall i | |g| <= i < |h| ensures !h[i].cmd.kind.Mint? && !h[i].cmd.kind.MonitorMint? && h[i].cmd.scope == key {
      assert MayAdd(pass, key, h[i].cmd);
    }
  }

  lemma GrantsKeep(sc: Scope, g0: seq<Node>, g: seq<Node>, h: seq<Node>, scopes: set<string>)
    requires Within(g0, g, scopes, sc.key) && sc.key in scopes && Grew(GrantPass, sc.key, g, h)
    requires forall i | |g| <= i < |h| :: h[i].cmd.scope in scopes
    requires SameScope(sc) ==> MintsOf(sc.key, g, h)
    ensures SameScope(sc) ==> Within(g0, h, scopes, sc.key)
    ensures ScopesIn(h, scopes)
  {
  }

  lemma MonitorsComeLast(g: seq<Node>, h: seq<Node>, scopes: set<string>, key: string)
    requires ScopesIn(g, scopes) && key in scopes && Grew(MonitorPass, key, g, h)
    ensures ScopesIn(h, scopes) && (NoLateMints(g) ==> NoLateMints(h))
    ensures forall i | |g| <= i < |h| :: !h[i].cmd.kind.Mint?
  {
    forall i | |g| <= i < |h| ensures !h[i].cmd.kind.Mint? && h[i].cmd.scope == key {
      assert MayAdd(MonitorPass, key, h[i].cmd);
    }
  }

  ghost predicate Between(d: Deployment, dbs: Databases, done: set<string>)
    reads d, dbs, dbs.repr
  {
    && d.Valid() && dbs.Consistent(d.nodes) && ScopesIn(d.nodes, done)
    && KeysIn(dbs, done)
  }

  ghost predicate KeysIn(dbs: Databases, scopes: set<string>)
    reads dbs
  {
    forall k | k in dbs.provisioners :: k.0 in scopes
  }

  lemma ScopesOfKeys(keys: set<Key>, more: set<Key>, sc: Scope, scopes: set<string>)
    requires (forall k | k in keys :: k.0 in scopes) && sc.key in scopes && more <= keys + DatabaseKeys(sc)
    ensures forall k | k in more :: k.0 in scopes
  {
  }

  method DeployClusters(d: Deployment, dbs: Databases, sc: Scope, gates0: map<string, nat>,
                        ghost g0: seq<Node>, ghost scopes: set<string>)
    returns (gates: map<string, nat>, tails: map<string, nat>, r: Result<()>)
    requires dbs.Ready(d, sc) && GatesOk(gates0, d.nodes)
    requires Within(g0, d.nodes, scopes, sc.key) && sc.key in scopes && TailsAre(map[], d.nodes, sc.key)
          && NoMints(d.nodes, sc.key)
    modifies dbs, d`nodes
    ensures dbs.Ready(d, sc) && GatesOk(gates, d.nodes)
    ensures Within(g0, d.nodes, scopes, sc.key) && TailsAre(tails, d.nodes, sc.key) && old(d.nodes) <= d.nodes
    ensures fresh(dbs.repr - old(dbs.repr))
    ensures r.Ok? <==> ClustersPlaced(sc, |sc.clusters|)
    ensures r.Ok? ==> AllClustersSetUp(d.nodes, sc, |sc.clusters|)
    ensures dbs.provisioners.Keys <= old(dbs.provisioners).Keys + DatabaseKeys(sc)
    ensures r.Ok? ==> dbs.provisioners.Keys == old(dbs.provisioners).Keys + DatabaseKeys(sc)
  {
    gates, tails, r := dbs.ProvisionClusters(d, sc, gates0);
    PassKeeps(ClusterPass, g0, old(d.nodes), d.nodes, scopes, sc.key);
  }

  method DeployBackups(d: Deployment, dbs: Databases, sc: Scope, settings: Settings, tails: map<string, nat>,
                       ghost g0: seq<Node>, ghost scopes: set<string>)
    returns (r: Result<()>)
    requires dbs.Ready(d, sc) && TailsAre(tails, d.nodes, sc.key) && AllClustersSetUp(d.nodes, sc, |sc.clusters|)
    requires Within(g0, d.nodes, scopes, sc.key) && sc.key in scopes
    modifies d`nodes
    ensures dbs.Ready(d, sc) && TailsOk(tails, d.nodes)
    ensures Within(g0, d.nodes, scopes, sc.key) && old(d.nodes) <= d.nodes
    ensures r.Ok? <==> BackupsPlaced(sc, settings)
    ensures r.Ok? ==> AllClustersSetUp(d.nodes, sc, |sc.clusters|) && AllBackedUp(d.nodes, sc, BackedUpHosts(sc))
  {
    TailsAreOk(tails, d.nodes, sc.key);
    r := ProvisionBackups(d, sc, settings, tails);
    PassKeeps(ClusterPass, g0, old(d.nodes), d.nodes, scopes, sc.key);
    AgreeKept(dbs.view, old(d.nodes), d.nodes);
    AllClustersGrow(old(d.nodes), d.nodes, sc, |sc.clusters|);
  }

  method DeployMesh(d: Deployment, dbs: Databases, sc: Scope, ghost done: set<string>)
    returns (gates: map<string, nat>, r: Result<()>)
    requires Between(d, dbs, done) && sc.key !in done && (sc.key == GLOBAL ==> done == {})
    modifies d
    ensures dbs.Ready(d, sc) && GatesOk(gates, d.nodes)
    ensures Within(old(d.nodes), d.nodes, done + {sc.key}, sc.key)
    ensures TailsAre(map[], d.nodes, sc.key) && NoMints(d.nodes, sc.key)
    ensures r.Ok? <==> MeshHosts(sc.res) <= sc.compute
    ensures r.Ok? ==> MeshLive(d.nodes, sc)
  {
    FreshScope(d.nodes, done, sc.key);
    gates := map[];
    gates, r := d.RealizeMesh(sc, gates);
    PassKeeps(MeshPass, old(d.nodes), old(d.nodes), d.nodes, done + {sc.key}, sc.key);
    AgreeKept(dbs.view, old(d.nodes), d.nodes);
    NoTails(old(d.nodes), d.nodes, done, sc.key);
  }

  lemma MintScopes(v: map<Key, Provisioner>, g: seq<Node>, h: seq<Node>, sc: Scope, scopes: set<string>)
    requires Agree(v, h) && (forall k | k in v :: k.0 in scopes) && GrantsGrew(sc, g, h)
    ensures forall i | |g| <= i < |h| :: h[i].cmd.scope in scopes
  {
    forall i | |g| <= i < |h| ensures h[i].cmd.scope in scopes {
      assert MayAdd(GrantPass, sc.key, h[i].cmd);
      assert MintKnown(v, h, i);
    }
  }

  /** The role names are checked before the first role is minted. */
  method DeployGrants(d: Deployment, dbs: Databases, sc: Scope, env: string, ghost g0: seq<Node>,
                      ghost scopes: set<string>)
    returns (r: Result<()>)
    requires dbs.Ready(d, sc) && sc.key in scopes
    requires Within(g0, d.nodes, scopes, sc.key) && KeysIn(dbs, scopes)
    modifies dbs.repr, dbs`view, d`nodes
    ensures dbs.Ready(d, sc) && old(d.nodes) <= d.nodes && ScopesIn(d.nodes, scopes)
    ensures SameScope(sc) ==> Within(g0, d.nodes, scopes, sc.key)
    ensures r.Ok? <==> RolesUsable(sc, env) && TargetsIn(sc, |sc.grants|, dbs.provisioners.Keys)
    ensures r.Ok? ==> GrantsMinted(d.nodes, sc, |sc.grants|)
  {
    var usable := RoleNames.CheckDbRoleNames(NamingScope(sc, env));
    if !usable {
      return Err("database role names are not usable");
    }
    r := dbs.ResolveGrants(d, sc);
    MintScopes(dbs.view, old(d.nodes), d.nodes, sc, scopes);
    GrantsKeep(sc, g0, old(d.nodes), d.nodes, scopes);
  }

  method DeployServices(d: Deployment, dbs: Databases, sc: Scope, gates0: map<string, nat>,
                        ghost g0: seq<Node>, ghost scopes: set<string>)
    returns (gates: map<string, nat>, r: Result<()>)
    requires dbs.Ready(d, sc) && GatesOk(gates0, d.nodes)
    requires ScopesIn(d.nodes, scopes) && sc.key in scopes
    requires SameScope(sc) ==> Within(g0, d.nodes, scopes, sc.key)
    modifies d`nodes
    ensures dbs.Ready(d, sc) && GatesOk(gates, d.nodes) && Grew(ServicePass, sc.key, old(d.nodes), d.nodes)
    ensures ScopesIn(d.nodes, scopes) && (SameScope(sc) ==> Within(g0, d.nodes, scopes, sc.key))
    ensures r.Ok? <==> forall svc | svc in sc.res.services :: Placed(sc, svc)
    ensures r.Ok? ==> AllDelivered(d.nodes, sc)
  {
    gates, r := d.ProvisionServices(sc, gates0);
    if SameScope(sc) {
      PassKeeps(ServicePass, g0, old(d.nodes), d.nodes, scopes, sc.key);
    }
    ServicePassFacts(old(d.nodes), d.nodes, scopes, sc.key);
    AgreeKept(dbs.view, old(d.nodes), d.nodes);
  }

  lemma ServicePassFacts(g: seq<Node>, h: seq<Node>, scopes: set<string>, key: string)
    requires ScopesIn(g, scopes) && key in scopes && Grew(ServicePass, key, g, h)
    ensures ScopesIn(h, scopes) && forall i | |g| <= i < |h| :: !h[i].cmd.kind.Mint?
  {
    forall i | |g| <= i < |h| ensures !h[i].cmd.kind.Mint? && h[i].cmd.scope == key {
      assert MayAdd(ServicePass, key, h[i].cmd);
    }
  }

  method DeployObservability(d: Deployment, dbs: Databases, sc: Scope, tails: map<string, nat>,
                             gates0: map<string, nat>, ghost scopes: set<string>)
    requires dbs.Ready(d, sc) && GatesOk(gates0, d.nodes) && TailsOk(tails, d.nodes)
    requires ScopesIn(d.nodes, scopes) && sc.key in scopes
    modifies d`nodes
    ensures dbs.Ready(d, sc) && old(d.nodes) <= d.nodes && ScopesIn(d.nodes, scopes)
    ensures NoLateMints(old(d.nodes)) ==> NoLateMints(d.nodes)
    ensures AllObserved(d.nodes, sc, sc.compute)
  {
    var _ := dbs.Observe(d, sc, tails, gates0);
    MonitorsComeLast(old(d.nodes), d.nodes, scopes, sc.key);
  }

  /** Grants, services, observability: everything after the backends of a scope are in place. */
  method DeployConsumers(d: Deployment, dbs: Databases, sc: Scope, env: string, otlp: bool, tails: map<string, nat>,
                         gates0: map<string, nat>, ghost g0: seq<Node>, ghost scopes: set<string>)
    returns (r: Result<()>)
    requires dbs.Ready(d, sc) && GatesOk(gates0, d.nodes) && TailsOk(tails, d.nodes)
    requires Within(g0, d.nodes, scopes, sc.key) && sc.key in scopes && KeysIn(dbs, scopes)
    modifies dbs.repr, dbs`view, d`nodes
    ensures dbs.Ready(d, sc) && old(d.nodes) <= d.nodes && ScopesIn(d.nodes, scopes)
    ensures SameScope(sc) && NoLateMints(g0) ==> NoLateMints(d.nodes)
    ensures r.Ok? <==> RolesUsable(sc, env) && TargetsIn(sc, |sc.grants|, dbs.provisioners.Keys)
                       && forall svc | svc in sc.res.services :: Placed(sc, svc)
    ensures r.Ok? ==> Consumed(d.nodes, sc, otlp)
  {
    r := DeployGrants(d, dbs, sc, env, g0, scopes);
    if r.Err? { return; }
    ghost var minted := d.nodes;
    r := DeployServed(d, dbs, sc, otlp, tails, gates0, g0, scopes);
    GrantsMintedGrow(minted, d.nodes, sc, |sc.grants|);
  }

  method DeployServed(d: Deployment, dbs: Databases, sc: Scope, otlp: bool, tails: map<string, nat>,
                      gates0: map<string, nat>, ghost g0: seq<Node>, ghost scopes: set<string>)
    returns (r: Result<()>)
    requires dbs.Ready(d, sc) && GatesOk(gates0, d.nodes) && TailsOk(tails, d.nodes)
    requires ScopesIn(d.nodes, scopes) && sc.key in scopes && (SameScope(sc) ==> Within(g0, d.nodes, scopes, sc.key))
    modifies d`nodes
    ensures dbs.Ready(d, sc) && old(d.nodes) <= d.nodes && ScopesIn(d.nodes, scopes)
    ensures SameScope(sc) && NoLateMints(g0) ==> NoLateMints(d.nodes)
    ensures r.Ok? <==> forall svc | svc in sc.res.services :: Placed(sc, svc)
    ensures r.Ok? ==> AllDelivered(d.nodes, sc) && (otlp ==> AllObserved(d.nodes, sc, sc.compute))
  {
    var gates;
    gates, r := DeployServices(d, dbs, sc, gates0, g0, scopes);
    if r.Err? { return; }
    ghost var was := d.nodes;
    if otlp { DeployObservability(d, dbs, sc, tails, gates, scopes); }
    AllDeliveredGrows(was, d.nodes, sc);
  }

  /** The half of a deployed scope that its services need. */
  ghost predicate Consumed(g: seq<Node>, sc: Scope, otlp: bool) {
    GrantsMinted(g, sc, |sc.grants|) && AllDelivered(g, sc) && (otlp ==> AllObserved(g, sc, sc.compute))
  }

  /** The half that serves them. */
  ghost predicate Backed(g: seq<Node>, sc: Scope) {
    MeshLive(g, sc) && AllClustersSetUp(g, sc, |sc.clusters|) && AllBackedUp(g, sc, BackedUpHosts(sc))
  }

  lemma BackedGrows(g: seq<Node>, h: seq<Node>, sc: Scope)
    requires g <= h && Backed(g, sc)
    ensures Backed(h, sc)
  {
    MeshLiveGrows(g, h, sc);
    AllClustersGrow(g, h, sc, |sc.clusters|);
    AllBackedUpGrows(g, h, sc, BackedUpHosts(sc));
  }

  /** The mesh proxies, then the databases. */
  method DeployBackends(d: Deployment, dbs: Databases, sc: Scope, settings: Settings, ghost done: set<string>)
    returns (gates: map<string, nat>, tails: map<string, nat>, r: Result<()>)
    requires Between(d, dbs, done) && sc.key !in done && (sc.key == GLOBAL ==> done == {})
    modifies d, dbs
    ensures dbs.Ready(d, sc) && Within(old(d.nodes), d.nodes, done + {sc.key}, sc.key)
    ensures fresh(dbs.repr - old(dbs.repr))
    ensures r.Ok? ==> GatesOk(gates, d.nodes) && TailsOk(tails, d.nodes)
    ensures r.Ok? <==>
      MeshHosts(sc.res) <= sc.compute && ClustersPlaced(sc, |sc.clusters|) && BackupsPlaced(sc, settings)
    ensures r.Ok? ==> Backed(d.nodes, sc)
    ensures dbs.provisioners.Keys <= old(dbs.provisioners).Keys + DatabaseKeys(sc)
    ensures r.Ok? ==> dbs.provisioners.Keys == old(dbs.provisioners).Keys + DatabaseKeys(sc)
  {
    ghost var g0, scopes := d.nodes, done + {sc.key};
    tails := map[];
    gates, r := DeployMesh(d, dbs, sc, done);
    if r.Err? { return; }
    ghost var g1 := d.nodes;
    gates, tails, r := DeployClusters(d, dbs, sc, gates, g0, scopes);
    if r.Err? { return; }
    ghost var g2 := d.nodes;
    r := DeployBackups(d, dbs, sc, settings, tails, g0, scopes);
    GatesGrow(gates, g2, d.nodes);
    MeshLiveGrows(g1, d.nodes, sc);
  }

  lemma GatesGrow(gates: map<string, nat>, g: seq<Node>, h: seq<Node>)
    requires g <= h && GatesOk(gates, g)
    ensures GatesOk(gates, h)
  {
  }

  /** One scope of the deploy; nothing of it has been registered before. It succeeds exactly when all it names is
      there. */
  method DeployScope(d: Deployment, dbs: Databases, sc: Scope, settings: Settings, otlp: bool, ghost done: set<string>)
    returns (r: Result<()>)
    requires Between(d, dbs, done) && sc.key !in done && (sc.key == GLOBAL ==> done == {})
    modifies d, dbs, dbs.repr
    ensures Between(d, dbs, done + {sc.key}) && old(d.nodes) <= d.nodes
    ensures fresh(dbs.repr - old(dbs.repr))
    ensures SameScope(sc) && NoLateMints(old(d.nodes)) ==> NoLateMints(d.nodes)
    ensures r.Ok? <==> ScopeOk(sc, settings, old(dbs.provisioners).Keys + DatabaseKeys(sc))
    ensures r.Ok? ==>
      ScopeDeployed(d.nodes, sc, otlp) && dbs.provisioners.Keys == old(dbs.provisioners).Keys + DatabaseKeys(sc)
  {
    ghost var g0 := d.nodes;
    var gates, tails;
    gates, tails, r := DeployBackends(d, dbs, sc, settings, done);
    ScopesOfKeys(old(dbs.provisioners).Keys, dbs.provisioners.Keys, sc, done + {sc.key});
    if r.Err? { return; }
    ghost var g1 := d.nodes;
    r := DeployConsumers(d, dbs, sc, settings.env, otlp, tails, gates, g0, done + {sc.key});
    BackedGrows(g1, d.nodes, sc);
    if r.Ok? { HalvesMakeScope(d.nodes, sc, otlp); }
  }

  lemma HalvesMakeScope(g: seq<Node>, sc: Scope, otlp: bool)
    requires Backed(g, sc) && Consumed(g, sc, otlp)
    ensures ScopeDeployed(g, sc, otlp)
  {
  }

  function Keys(scopes: seq<Scope>): (r: seq<string>)
    ensures |r| == |scopes| && forall i | 0 <= i < |r| :: r[i] == scopes[i].key
  {
    if scopes == [] then [] else [scopes[0].key] + Keys(scopes[1..])
  }

  /** The databases the first scopes declare. */
  function KeysUpTo(scopes: seq<Scope>, n: nat): set<Key>
    requires n <= |scopes|
  {
    if n == 0 then {} else KeysUpTo(scopes, n - 1) + DatabaseKeys(scopes[n - 1])
  }

  lemma {:induction false} KeysUpToIs(scopes: seq<Scope>, n: nat, k: Key)
    requires n <= |scopes|
    ensures k in KeysUpTo(scopes, n) <==> exists i :: 0 <= i < n && k in DatabaseKeys(scopes[i])
    decreases n
  {
    if n > 0 { KeysUpToIs(scopes, n - 1, k); }
  }

  /** A grant reaches its own scope or the global one, and both are realized by the time it is resolved. */
  lemma {:induction false} TargetsSettled(scopes: seq<Scope>, i: nat)
    requires NoDuplicates(Keys(scopes)) && GlobalFirst(Keys(scopes)) && i < |scopes|
    ensures TargetsIn(scopes[i], |scopes[i].grants|, KeysUpTo(scopes, i + 1))
       <==> TargetsIn(scopes[i], |scopes[i].grants|, KeysUpTo(scopes, |scopes|))
  {
    var sc := scopes[i];
    forall gr | gr in sc.grants
      ensures GrantTarget(sc, gr) in KeysUpTo(scopes, i + 1) <==> GrantTarget(sc, gr) in KeysUpTo(scopes, |scopes|)
    {
      TargetSettled(scopes, i, GrantTarget(sc, gr));
    }
  }

  lemma {:induction false} TargetSettled(scopes: seq<Scope>, i: nat, k: Key)
    requires NoDuplicates(Keys(scopes)) && GlobalFirst(Keys(scopes)) && i < |scopes|
          && (k.0 == scopes[i].key || k.0 == GLOBAL)
    ensures k in KeysUpTo(scopes, i + 1) <==> k in KeysUpTo(scopes, |scopes|)
  {
    KeysUpToIs(scopes, i + 1, k);
    KeysUpToIs(scopes, |scopes|, k);
    if j :| 0 <= j < |scopes| && k in DatabaseKeys(scopes[j]) {
      OwnOrGlobal(Keys(scopes), i, j);
    }
  }

  lemma OwnOrGlobal(keys: seq<string>, i: nat, j: nat)
    requires NoDuplicates(keys) && GlobalFirst(keys) && i < |keys| && j < |keys|
          && (keys[j] == keys[i] || keys[j] == GLOBAL)
    ensures j <= i
  {
  }

  /** The first scopes are deployed. */
  ghost predicate DeployedTo(g: seq<Node>, scopes: seq<Scope>, n: nat, otlp: bool)
    requires n <= |scopes|
    decreases n, 0
  {
    n == 0 || DeployedAt(g, scopes, n - 1, otlp)
  }

  ghost predicate DeployedAt(g: seq<Node>, scopes: seq<Scope>, i: nat, otlp: bool)
    requires i < |scopes|
    decreases i, 1
  {
    DeployedTo(g, scopes, i, otlp) && ScopeDeployed(g, scopes[i], otlp)
  }

  /** The first scopes were fit to deploy. */
  ghost predicate FitTo(scopes: seq<Scope>, n: nat, settings: Settings)
    requires n <= |scopes|
    decreases n, 0
  {
    n == 0 || FitAt(scopes, n - 1, settings)
  }

  ghost predicate FitAt(scopes: seq<Scope>, i: nat, settings: Settings)
    requires i < |scopes|
    decreases i, 1
  {
    FitTo(scopes, i, settings) && ScopeOk(scopes[i], settings, KeysUpTo(scopes, |scopes|))
  }

  lemma {:induction false} DeployedToIs(g: seq<Node>, scopes: seq<Scope>, n: nat, otlp: bool, i: nat)
    requires i < n <= |scopes| && DeployedTo(g, scopes, n, otlp)
    ensures ScopeDeployed(g, scopes[i], otlp)
    decreases n
  {
    assert DeployedAt(g, scopes, n - 1, otlp);
    if i < n - 1 { DeployedToIs(g, scopes, n - 1, otlp, i); }
  }

  lemma {:induction false} FitToIs(scopes: seq<Scope>, n: nat, settings: Settings, i: nat)
    requires i < n <= |scopes| && FitTo(scopes, n, settings)
    ensures ScopeOk(scopes[i], settings, KeysUpTo(scopes, |scopes|))
    decreases n
  {
    assert FitAt(scopes, n - 1, settings);
    if i < n - 1 { FitToIs(scopes, n - 1, settings, i); }
  }

  lemma EveryScope(g: seq<Node>, scopes: seq<Scope>, settings: Settings, otlp: bool)
    requires DeployedTo(g, scopes, |scopes|, otlp) && FitTo(scopes, |scopes|, settings)
    ensures AllOk(scopes, settings)
    ensures forall sc | sc in scopes :: ScopeDeployed(g, sc, otlp)
  {
    forall sc | sc in scopes ensures ScopeDeployed(g, sc, otlp) {
      var i :| 0 <= i < |scopes| && scopes[i] == sc;
      DeployedToIs(g, scopes, |scopes|, otlp, i);
    }
    forall sc | sc in scopes ensures ScopeOk(sc, settings, KeysUpTo(scopes, |scopes|)) {
      var i :| 0 <= i < |scopes| && scopes[i] == sc;
      FitToIs(scopes, |scopes|, settings, i);
    }
  }

  ghost predicate AllOk(scopes: seq<Scope>, settings: Settings) {
    forall sc | sc in scopes :: ScopeOk(sc, settings, KeysUpTo(scopes, |scopes|))
  }

  /** Where the scope loop stands: the first scopes were fit to deploy and are deployed, and nothing else is. */
  ghost predicate Progress(g: seq<Node>, keys: set<Key>, scopes: seq<Scope>, n: nat, settings: Settings, otlp: bool) {
    && n <= |scopes| && ScopesIn(g, Done(Keys(scopes), n)) && keys == KeysUpTo(scopes, n)
    && DeployedTo(g, scopes, n, otlp) && FitTo(scopes, n, settings) && (AllSameScope(scopes) ==> NoLateMints(g))
  }

  /** The deployment and the provisioners after the first scopes. */
  ghost predicate Standing(d: Deployment, dbs: Databases, scopes: seq<Scope>, n: nat, settings: Settings, otlp: bool)
    reads d, dbs, dbs.repr
  {
    d.Valid() && dbs.Consistent(d.nodes) && Progress(d.nodes, dbs.view.Keys, scopes, n, settings, otlp)
  }

  /** The whole deploy. It succeeds exactly when the global scope comes first and all that every scope names is there;
      however it ends, what it registered is sound. */
  method Run(scopes: seq<Scope>, settings: Settings, otlp: bool) returns (d: Deployment, r: Result<()>)
    requires NoDuplicates(Keys(scopes))
    ensures Registered(d.nodes)
    ensures !GlobalFirst(Keys(scopes)) ==> d.nodes == []
    ensures r.Ok? <==> GlobalFirst(Keys(scopes)) && AllOk(scopes, settings)
    ensures r.Ok? ==> forall sc | sc in scopes :: ScopeDeployed(d.nodes, sc, otlp)
    ensures AllSameScope(scopes) ==> NoLateMints(d.nodes)
  {
    d := new Deployment();
    var ok := RequireGlobalScopeFirst(Keys(scopes));
    if !ok {
      return d, Err("the global scope must realize before every regional scope");
    }
    r := RunScopes(d, scopes, settings, otlp);
    if r.Ok? { EveryScope(d.nodes, scopes, settings, otlp); }
  }

  method RunScopes(d: Deployment, scopes: seq<Scope>, settings: Settings, otlp: bool) returns (r: Result<()>)
    requires NoDuplicates(Keys(scopes)) && GlobalFirst(Keys(scopes)) && d.Valid() && d.nodes == []
    modifies d
    ensures d.Valid() && (r.Err? ==> !AllOk(scopes, settings))
    ensures r.Ok? ==> DeployedTo(d.nodes, scopes, |scopes|, otlp) && FitTo(scopes, |scopes|, settings)
    ensures AllSameScope(scopes) ==> NoLateMints(d.nodes)
  {
    var dbs := new Databases();
    assert Progress(d.nodes, dbs.view.Keys, scopes, 0, settings, otlp);
    for i := 0 to |scopes|
      invariant fresh(dbs.repr)
      invariant Standing(d, dbs, scopes, i, settings, otlp)
    {
      r := DeployNext(d, dbs, scopes, i, settings, otlp);
      if r.Err? { return; }
    }
    StandingEnds(d, dbs, scopes, settings, otlp);
    r := Ok(());
  }

  lemma StandingEnds(d: Deployment, dbs: Databases, scopes: seq<Scope>, settings: Settings, otlp: bool)
    requires Standing(d, dbs, scopes, |scopes|, settings, otlp)
    ensures d.Valid() && DeployedTo(d.nodes, scopes, |scopes|, otlp) && FitTo(scopes, |scopes|, settings)
         && (AllSameScope(scopes) ==> NoLateMints(d.nodes))
  {
  }

  ghost predicate AllSameScope(scopes: seq<Scope>) { forall sc | sc in scopes :: SameScope(sc) }

  ghost function Done(keys: seq<string>, n: nat): set<string>
    requires n <= |keys|
  {
    if n == 0 then {} else Done(keys, n - 1) + {keys[n - 1]}
  }

  lemma {:induction false} DoneIs(keys: seq<string>, n: nat)
    requires n <= |keys|
    ensures forall k :: k in Done(keys, n) <==> exists i :: 0 <= i < n && keys[i] == k
    decreases n
  {
    if n > 0 { DoneIs(keys, n - 1); }
  }

  /** The next scope of the list, after all those before it. */
  method DeployNext(d: Deployment, dbs: Databases, scopes: seq<Scope>, i: nat, settings: Settings, otlp: bool)
    returns (r: Result<()>)
    requires i < |scopes| && NoDuplicates(Keys(scopes)) && GlobalFirst(Keys(scopes))
    requires Standing(d, dbs, scopes, i, settings, otlp)
    modifies d, dbs, dbs.repr
    ensures d.Valid() && fresh(dbs.repr - old(dbs.repr))
    ensures r.Ok? ==> Standing(d, dbs, scopes, i + 1, settings, otlp)
    ensures r.Err? ==> !AllOk(scopes, settings) && (AllSameScope(scopes) ==> NoLateMints(d.nodes))
  {
    FreshKey(Keys(scopes), i);
    TargetsSettled(scopes, i);
    ScopesOfKeysUpTo(scopes, i);
    r := DeployScope(d, dbs, scopes[i], settings, otlp, Done(Keys(scopes), i));
    DeployedGrow(old(d.nodes), d.nodes, scopes, i, otlp);
    assert scopes[i] in scopes;
    assert r.Ok? ==> Progress(d.nodes, dbs.view.Keys, scopes, i + 1, settings, otlp);
  }

  lemma {:induction false} DeployedGrow(g: seq<Node>, h: seq<Node>, scopes: seq<Scope>, n: nat, otlp: bool)
    requires g <= h && n <= |scopes| && DeployedTo(g, scopes, n, otlp)
    ensures DeployedTo(h, scopes, n, otlp)
    decreases n
  {
    if n > 0 {
      assert DeployedAt(g, scopes, n - 1, otlp);
      DeployedGrow(g, h, scopes, n - 1, otlp);
      ScopeDeployedGrows(g, h, scopes[n - 1], otlp);
      assert DeployedAt(h, scopes, n - 1, otlp);
    }
  }

  lemma ScopesOfKeysUpTo(scopes: seq<Scope>, n: nat)
    requires n <= |scopes|
    ensures forall k | k in KeysUpTo(scopes, n) :: k.0 in Done(Keys(scopes), n)
  {
    forall k | k in KeysUpTo(scopes, n) ensures k.0 in Done(Keys(scopes), n) {
      KeysUpToIs(scopes, n, k);
      var i :| 0 <= i < n && k in DatabaseKeys(scopes[i]);
      DoneIs(Keys(scopes), n);
      assert Keys(scopes)[i] == k.0;
    }
  }

  lemma FreshKey(keys: seq<string>, i: nat)
    requires NoDuplicates(keys) && GlobalFirst(keys) && i < |keys|
    ensures keys[i] !in Done(keys, i) && (keys[i] == GLOBAL ==> Done(keys, i) == {})
    ensures Done(keys, i + 1) == Done(keys, i) + {keys[i]}
  {
    DoneIs(keys, i);
    assert i == 0 || keys[0] != keys[i];
    assert keys[i] == GLOBAL ==> i == 0;
  }
}
