/** What every execution of a deploy's graph respects. */
module DeploySafety {
  import opened Common
  import opened Mesh
  import opened Dag
  import opened DeployOrder
  import opened DeployRun
  import opened DeployGoals
  import opened Deploy
  import opened MeshProxy

  /** The mesh-order theorem: whatever the engine interleaves, the reload that admits a permitted caller at its callee
      has finished before any command that restarts the caller starts. */
  lemma CalleeReloadsBeforeCallerRestarts(env: Env, scopes: seq<Scope>, g: seq<Node>, otlp: bool,
                                          matches: (string, string) -> bool, c: Caller, target: string, path: string,
                                          svc: Service, callee: Scope, s: seq<Event>, b: nat)
    requires Registered(g) && (forall sc | sc in scopes :: sc.res == env.Of(sc.key) && ScopeDeployed(g, sc, otlp))
    requires callee in scopes && Permitted(env, matches, c, target, path, callee.key, svc)
    requires env.Of(callee.key).canonical[svc.host] in callee.live
    requires Legal(g, s)
    requires b < |g| && Restarts(g[b].cmd) && g[b].cmd.scope == c.scope && g[b].cmd.name == c.name
    ensures var reload := Command(callee.key, env.Of(callee.key).canonical[svc.host], Reload, "");
      && (exists a :: 0 <= a < |g| && g[a].cmd == reload)
      && (forall a | 0 <= a < |g| && g[a].cmd == reload :: FinishesBeforeStart(s, a, b))
  {
    var host := env.Of(callee.key).canonical[svc.host];
    RegisteredIsSound(g);
    assert svc in callee.res.services && svc.pki != "" && callee.res.Resolves(svc);
    assert HasReload(g, callee.key, host);
    forall a | 0 <= a < |g| && g[a].cmd == Command(callee.key, host, Reload, "") ensures FinishesBeforeStart(s, a, b) {
      assert Serves(g[a].cmd.scope, g[b].cmd.scope);
      assert a in g[b].deps;
      assert Before(g, a, b);
      OrderIsRespected(g, s, a, b);
    }
  }

  /** A delivery never runs while its unit is absent. */
  lemma UnitPrecedesDelivery(g: seq<Node>, s: seq<Event>, b: nat)
    requires Registered(g) && Legal(g, s) && b < |g| && NeedsUnit(g[b].cmd)
    ensures exists a :: 0 <= a < b && IsUnitOf(g[a].cmd, g[b].cmd) && FinishesBeforeStart(s, a, b)
  {
    RegisteredIsSound(g);
    var a :| 0 <= a < b && a in g[b].deps && IsUnitOf(g[a].cmd, g[b].cmd);
    assert Before(g, a, b);
    OrderIsRespected(g, s, a, b);
  }

  /** Setup commands of one host, and mints on one database, never run at the same time. */
  lemma DatabaseCommandsTakeTurns(g: seq<Node>, a: nat, b: nat)
    requires Registered(g) && a < |g| && b < |g| && a != b
    requires LaneOf(g[a].cmd) != Free && LaneOf(g[a].cmd) == LaneOf(g[b].cmd)
    ensures !CanOverlap(g, a, b)
    ensures a < b ==> forall s | Legal(g, s) :: FinishesBeforeStart(s, a, b)
  {
    RegisteredIsSound(g);
    LaneNeverOverlaps(g, a, b);
    if a < b { OrderedIff(g, a, b); }
  }

  lemma {:induction false} MonitorIsASink(g: seq<Node>, m: nat, b: nat)
    requires WellFormed(g) && MonitorsAreLast(g) && m < |g| && Before(g, m, b) && g[m].cmd.kind.MonitorMint?
    ensures g[b].cmd.kind.CollectorConfig?
    decreases b
  {
    var d :| d in g[b].deps && d < b && (d == m || Before(g, m, d));
    assert MayDependOn(g[b].cmd, g[d].cmd);
    if d != m { MonitorIsASink(g, m, d); }
  }

  /** A role mint is kept apart from its cluster's monitor mint exactly when it was registered first. */
  lemma MonitorFollowsIff(g: seq<Node>, mint: nat, monitor: nat)
    requires Registered(g) && mint < |g| && monitor < |g| && OnCluster(g[mint].cmd, g[monitor].cmd)
    ensures !CanOverlap(g, mint, monitor) <==> mint < monitor
    ensures mint < monitor ==> forall s | Legal(g, s) :: FinishesBeforeStart(s, mint, monitor)
  {
    RegisteredIsSound(g);
    OverlapIff(g, mint, monitor);
    if mint < monitor {
      OrderedIff(g, mint, monitor);
    } else {
      if Before(g, mint, monitor) { BeforeIsEarlier(g, mint, monitor); }
      if Before(g, monitor, mint) { MonitorIsASink(g, monitor, mint); }
    }
  }

  // ---- The databases of a deployed scope ----

  lemma {:induction false} ChainInOrder(g: seq<Node>, ids: seq<nat>, cmds: seq<Command>, i: nat, j: nat)
    requires WellFormed(g) && Chain(g, ids, cmds) && i < j < |ids|
    ensures Before(g, ids[i], ids[j])
    decreases j
  {
    assert Before(g, ids[j - 1], ids[j]);
    if i < j - 1 {
      ChainInOrder(g, ids, cmds, i, j - 1);
      BeforeTransitive(g, ids[i], ids[j - 1], ids[j]);
    }
  }

  /** Every cluster's commands exist and run one after the other: install, mount, init, configure, then its databases by
      name. */
  lemma ClusterRunsInOrder(g: seq<Node>, sc: Scope, otlp: bool, c: Cluster, s: seq<Event>) returns (ids: seq<nat>)
    requires Registered(g) && ScopeDeployed(g, sc, otlp) && c in sc.clusters && Legal(g, s)
    ensures c.host in sc.res.canonical
    ensures var dbs := DatabasesOf(sc.databases, c.name);
      Chain(g, ids, ClusterCmds(sc.key, sc.res.canonical[c.host], c.name, dbs, |dbs|))
    ensures forall i, j | 0 <= i < j < |ids| :: FinishesBeforeStart(s, ids[i], ids[j])
  {
    RegisteredIsSound(g);
    assert sc.clusters[..|sc.clusters|] == sc.clusters;
    AllClustersAre(g, sc, |sc.clusters|, c);
    var dbs := DatabasesOf(sc.databases, c.name);
    var cmds := ClusterCmds(sc.key, sc.res.canonical[c.host], c.name, dbs, |dbs|);
    ids :| Chain(g, ids, cmds) && ids[|ids| - 1] < |g|;
    forall i, j | 0 <= i < j < |ids| ensures FinishesBeforeStart(s, ids[i], ids[j]) {
      ChainInOrder(g, ids, cmds, i, j);
      OrderIsRespected(g, s, ids[i], ids[j]);
    }
  }

  /** Every grant has its role, minted once the database it names exists; and in a graph without late mints,
      which is what grants within their own scope give, before any monitor of that cluster. */
  lemma GrantHasItsRole(g: seq<Node>, sc: Scope, otlp: bool, gr: Grant, s: seq<Event>) returns (mint: nat, db: nat)
    requires Registered(g) && ScopeDeployed(g, sc, otlp) && gr in sc.grants && Legal(g, s)
    ensures mint < |g| && MintFor(g[mint].cmd, sc, gr)
    ensures db < |g| && CreatesFor(g[db].cmd, g[mint].cmd) && FinishesBeforeStart(s, db, mint)
    ensures NoLateMints(g) ==>
      forall monitor: nat | monitor < |g| && OnCluster(g[mint].cmd, g[monitor].cmd) ::
        FinishesBeforeStart(s, mint, monitor)
  {
    RegisteredIsSound(g);
    var n :| 0 <= n < |sc.grants| && sc.grants[n] == gr;
    assert GrantMinted(g, sc, sc.grants[n]);
    mint :| MintAt(g, sc, gr, mint);
    db :| db in g[mint].deps && db < |g| && CreatesFor(g[db].cmd, g[mint].cmd);
    assert Before(g, db, mint);
    OrderIsRespected(g, s, db, mint);
    if NoLateMints(g) {
      forall monitor: nat | monitor < |g| && OnCluster(g[mint].cmd, g[monitor].cmd)
        ensures FinishesBeforeStart(s, mint, monitor)
      {
        RolesBeforeMonitor(g, mint, monitor, s);
      }
    }
  }

  /** Without late mints, no execution starts a cluster's monitor mint before every role mint on it has finished. */
  lemma RolesBeforeMonitor(g: seq<Node>, mint: nat, monitor: nat, s: seq<Event>)
    requires Registered(g) && NoLateMints(g) && Legal(g, s)
    requires mint < |g| && monitor < |g| && OnCluster(g[mint].cmd, g[monitor].cmd)
    ensures FinishesBeforeStart(s, mint, monitor)
  {
    MonitorFollowsIff(g, mint, monitor);
  }

  /** A scraped cluster of a deployed scope: its role mints, then its monitor mint, then the collector of its host. */
  lemma CollectorComesLast(g: seq<Node>, sc: Scope, host: string, cluster: string, s: seq<Event>)
      returns (monitor: nat, config: nat)
    requires Registered(g) && NoLateMints(g) && Legal(g, s)
    requires ScopeDeployed(g, sc, true) && host in sc.compute && cluster in MonitoredOn(sc, host)
    ensures monitor < |g| && g[monitor].cmd == Command(sc.key, host, MonitorMint(cluster), cluster)
    ensures config < |g| && g[config].cmd == Command(sc.key, host, CollectorConfig, "")
    ensures FinishesBeforeStart(s, monitor, config)
    ensures forall mint | 0 <= mint < |g| && g[mint].cmd.kind.Mint? && g[mint].cmd.kind.cluster == cluster
         && g[mint].cmd.scope == sc.key ::
      FinishesBeforeStart(s, mint, monitor)
  {
    RegisteredIsSound(g);
    assert Observed(g, sc, host);
    config :| CollectorAt(g, sc, host, config);
    assert MonitorIn(g, g[config].deps, sc, host, cluster);
    monitor :| monitor in g[config].deps && monitor < |g|
      && g[monitor].cmd == Command(sc.key, host, MonitorMint(cluster), cluster);
    assert Before(g, monitor, config);
    OrderIsRespected(g, s, monitor, config);
    forall mint | 0 <= mint < |g| && g[mint].cmd.kind.Mint? && g[mint].cmd.kind.cluster == cluster
      && g[mint].cmd.scope == sc.key
      ensures FinishesBeforeStart(s, mint, monitor)
    {
      RolesBeforeMonitor(g, mint, monitor, s);
    }
  }

  /** The timer of one database starts after the credential is written, the credential after the tools are installed. */
  ghost predicate TimedLast(g: seq<Node>, s: seq<Event>, tools: nat, timer: Command) {
    exists c, t :: 0 <= c < |g| && 0 <= t < |g| && g[c].cmd.kind.BackupCredential? && g[t].cmd == timer
                   && FinishesBeforeStart(s, tools, c) && FinishesBeforeStart(s, c, t)
                   && FinishesBeforeStart(s, tools, t)
  }

  lemma TimerIsTimed(g: seq<Node>, sc: Scope, host: string, s: seq<Event>, tools: nat, timer: Command)
    requires Registered(g) && Legal(g, s) && tools < |g| && Timed(g, sc, host, tools)
          && timer in TimerCmds(sc, host, sc.clusters)
    ensures TimedLast(g, s, tools, timer)
  {
    var credential: nat :| TimersAt(g, sc, host, tools, credential);
    RegisteredIsSound(g);
    assert Follows(g, timer, credential);
    var t :| 0 <= t < |g| && g[t].cmd == timer && g[t].deps == {credential};
    assert tools in g[credential].deps && credential in g[t].deps;
    assert Before(g, tools, credential) && Before(g, credential, t);
    BeforeTransitive(g, tools, credential, t);
    OrderIsRespected(g, s, tools, credential);
    OrderIsRespected(g, s, credential, t);
    OrderIsRespected(g, s, tools, t);
  }

  lemma ToolsOf(g: seq<Node>, sc: Scope, otlp: bool, host: string) returns (tools: nat)
    requires ScopeDeployed(g, sc, otlp) && host in BackedUpHosts(sc)
    ensures BackupAt(g, sc, host, tools) && Timed(g, sc, host, tools)
  {
    assert BackedUp(g, sc, host);
    tools :| BackupAt(g, sc, host, tools) && Timed(g, sc, host, tools);
  }

  /** The backup tools of a host run after every command of its clusters, and each timer after the tools and the
      credential. */
  lemma BackupsComeLast(g: seq<Node>, sc: Scope, otlp: bool, host: string, s: seq<Event>) returns (tools: nat)
    requires Registered(g) && ScopeDeployed(g, sc, otlp) && host in BackedUpHosts(sc) && Legal(g, s)
    ensures tools < |g| && g[tools].cmd == Command(sc.key, host, BackupInstall, "")
    ensures forall c, db | c in sc.clusters && c.host in sc.res.canonical && sc.res.canonical[c.host] == host
                           && db in sc.databases && db.cluster == c.name && db.backup ::
      TimedLast(g, s, tools, Command(sc.key, host, BackupTimer(db.name), c.name))
    ensures forall c | c in sc.clusters && c.host in sc.res.canonical && sc.res.canonical[c.host] == host ::
      SetUpBefore(g, sc, c, s, tools)
  {
    tools := ToolsOf(g, sc, otlp, host);
    forall timer | timer in TimerCmds(sc, host, sc.clusters) ensures TimedLast(g, s, tools, timer) {
      TimerIsTimed(g, sc, host, s, tools, timer);
    }
    TimerCmdsAre(sc, host, sc.clusters);
    ToolsFollowClusters(g, sc, host, s, tools);
  }

  lemma ToolsFollowClusters(g: seq<Node>, sc: Scope, host: string, s: seq<Event>, tools: nat)
    requires Registered(g) && Legal(g, s) && BackupAt(g, sc, host, tools)
    ensures forall c | c in sc.clusters && c.host in sc.res.canonical && sc.res.canonical[c.host] == host ::
      SetUpBefore(g, sc, c, s, tools)
  {
    RegisteredIsSound(g);
    forall c | c in sc.clusters && c.host in sc.res.canonical && sc.res.canonical[c.host] == host
      ensures SetUpBefore(g, sc, c, s, tools)
    {
      ChainBefore(g, sc, c, s, tools);
    }
  }

  ghost predicate SetUpBefore(g: seq<Node>, sc: Scope, c: Cluster, s: seq<Event>, b: nat)
    requires c.host in sc.res.canonical
  {
    var dbs := DatabasesOf(sc.databases, c.name);
    exists ids :: Chain(g, ids, ClusterCmds(sc.key, sc.res.canonical[c.host], c.name, dbs, |dbs|))
                  && forall k | 0 <= k < |ids| :: FinishesBeforeStart(s, ids[k], b)
  }

  lemma ChainBefore(g: seq<Node>, sc: Scope, c: Cluster, s: seq<Event>, b: nat)
    requires Sound(g) && Legal(g, s) && b < |g| && ClusterSetUp(g, sc, c, b)
    requires LaneOf(g[b].cmd) == HostSetup(sc.key, sc.res.canonical[c.host])
    ensures SetUpBefore(g, sc, c, s, b)
  {
    var dbs := DatabasesOf(sc.databases, c.name);
    var host := sc.res.canonical[c.host];
    var cmds := ClusterCmds(sc.key, host, c.name, dbs, |dbs|);
    var ids :| Chain(g, ids, cmds) && ids[|ids| - 1] < b;
    forall k | 0 <= k < |ids| ensures FinishesBeforeStart(s, ids[k], b) {
      if k < |ids| - 1 {
        ChainInOrder(g, ids, cmds, k, |ids| - 1);
        BeforeIsEarlier(g, ids[k], ids[|ids| - 1]);
      }
      ClusterCmdsLane(sc.key, host, c.name, dbs, |dbs|, k);
      assert Before(g, ids[k], b);
      OrderIsRespected(g, s, ids[k], b);
    }
  }

  lemma {:induction false} ClusterCmdsLane(scope: string, host: string, cluster: string, dbs: seq<Database>, n: nat,
                                           k: nat)
    requires n <= |dbs| && k < |ClusterCmds(scope, host, cluster, dbs, n)|
    ensures LaneOf(ClusterCmds(scope, host, cluster, dbs, n)[k]) == HostSetup(scope, host)
    decreases n
  {
    if n > 0 {
      assert ClusterCmds(scope, host, cluster, dbs, n) == ClusterCmds(scope, host, cluster, dbs, n - 1)
             + [Command(scope, host, CreateDatabase(dbs[n - 1].name), cluster)];
      if k < |ClusterCmds(scope, host, cluster, dbs, n - 1)| { ClusterCmdsLane(scope, host, cluster, dbs, n - 1, k); }
    }
  }
}
