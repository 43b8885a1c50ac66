/** What a scope asks of its databases, and when a registered graph holds it (program/dbcluster.go,
    program/dbbackup.go, program/program.go provisionObservability). */
module DeployGoals {
  import opened Common
  import opened Mesh
  import opened Dag
  import opened DeployOrder

  function InsertDatabase(db: Database, sorted: seq<Database>): (r: seq<Database>)
    ensures forall d :: d in r <==> d == db || d in sorted
  {
    if sorted == [] || StringLe(db.name, sorted[0].name) then [db] + sorted
    else [sorted[0]] + InsertDatabase(db, sorted[1..])
  }

  /** The logical databases of a cluster, by name. */
  function DatabasesOf(databases: seq<Database>, cluster: string): (r: seq<Database>)
    ensures forall d :: d in r <==> d in databases && d.cluster == cluster
  {
    if databases == [] then []
    else if databases[0].cluster == cluster then InsertDatabase(databases[0], DatabasesOf(databases[1..], cluster))
    else DatabasesOf(databases[1..], cluster)
  }

  /** The clusters of a host with at least one scraped database. */
  function MonitoredOn(sc: Scope, host: string): set<string> {
    set c | c in sc.clusters && c.host in sc.res.canonical && sc.res.canonical[c.host] == host
            && (exists db :: db in sc.databases && db.cluster == c.name && db.metrics) :: c.name
  }

  function BackedUpHosts(sc: Scope): set<string> {
    set c | c in sc.clusters && c.host in sc.res.canonical
            && (exists db :: db in sc.databases && db.cluster == c.name && db.backup) :: sc.res.canonical[c.host]
  }

  predicate ClusterPlaced(sc: Scope, c: Cluster) {
    c.selfHosted && c.host in sc.res.canonical && sc.res.canonical[c.host] in sc.compute
  }

  predicate ClustersPlaced(sc: Scope, n: nat)
    requires n <= |sc.clusters|
  {
    forall i | 0 <= i < n :: ClusterPlaced(sc, sc.clusters[i])
  }

  predicate BackupsPlaced(sc: Scope, settings: Settings) {
    BackedUpHosts(sc) == {} || (settings.bucket && settings.credential && BackedUpHosts(sc) <= sc.compute)
  }

  function GrantTarget(sc: Scope, g: Grant): (string, string) { (if g.isGlobal then GLOBAL else sc.key, g.database) }

  predicate SameScope(sc: Scope) { forall g | g in sc.grants :: GrantTarget(sc, g).0 == sc.key }

  /** The databases of some clusters, by scope and name: what a grant can target. */
  function KeysOn(sc: Scope, clusters: set<string>): set<(string, string)> {
    set db | db in sc.databases && db.cluster in clusters :: (sc.key, db.name)
  }

  function NamesTo(clusters: seq<Cluster>, n: nat): set<string>
    requires n <= |clusters|
  {
    set i | 0 <= i < n :: clusters[i].name
  }

  function DatabaseKeys(sc: Scope): set<(string, string)> { KeysOn(sc, NamesTo(sc.clusters, |sc.clusters|)) }

  // ---- A cluster's commands ----

  function PostmasterCmds(scope: string, host: string, cluster: string): seq<Command> {
    [Command(scope, host, Install, cluster), Command(scope, host, Mount, cluster), Command(scope, host, Init, cluster),
     Command(scope, host, Config, cluster)]
  }

  function DatabaseCmds(scope: string, host: string, cluster: string, dbs: seq<Database>, n: nat): seq<Command>
    requires n <= |dbs|
  {
    if n == 0 then []
    else DatabaseCmds(scope, host, cluster, dbs, n - 1)
         + [Command(scope, host, CreateDatabase(dbs[n - 1].name), cluster)]
  }

  /** Install, mount, init, configure, then every logical database by name. */
  function ClusterCmds(scope: string, host: string, cluster: string, dbs: seq<Database>, n: nat): seq<Command>
    requires n <= |dbs|
  {
    PostmasterCmds(scope, host, cluster) + DatabaseCmds(scope, host, cluster, dbs, n)
  }

  /** These commands are registered, each a dependency of the next. */
  ghost predicate Chain(g: seq<Node>, ids: seq<nat>, cmds: seq<Command>) {
    && |ids| == |cmds| && (forall k | 0 <= k < |ids| :: ids[k] < |g| && g[ids[k]].cmd == cmds[k])
    && forall k | 0 < k < |ids| :: ids[k - 1] in g[ids[k]].deps
  }

  lemma ChainGrows(g: seq<Node>, h: seq<Node>, ids: seq<nat>, cmds: seq<Command>)
    requires g <= h && Chain(g, ids, cmds)
    ensures Chain(h, ids, cmds)
  {
    forall k | 0 <= k < |ids| ensures h[ids[k]] == g[ids[k]] {}
  }

  lemma ChainSnoc(g: seq<Node>, ids: seq<nat>, cmds: seq<Command>, id: nat, cmd: Command)
    requires Chain(g, ids, cmds) && ids != [] && id < |g| && g[id].cmd == cmd && ids[|ids| - 1] in g[id].deps
    ensures Chain(g, ids + [id], cmds + [cmd])
  {
  }

  /** Some chain of the cluster's commands ends before `limit`. */
  ghost predicate ClusterSetUp(g: seq<Node>, sc: Scope, c: Cluster, limit: nat) {
    c.host in sc.res.canonical
    && var dbs := DatabasesOf(sc.databases, c.name);
       exists ids ::
         Chain(g, ids, ClusterCmds(sc.key, sc.res.canonical[c.host], c.name, dbs, |dbs|)) && ids[|ids| - 1] < limit
  }

  lemma ClusterSetUpGrows(g: seq<Node>, h: seq<Node>, sc: Scope, c: Cluster, limit: nat, later: nat)
    requires g <= h && limit <= later && ClusterSetUp(g, sc, c, limit)
    ensures ClusterSetUp(h, sc, c, later)
  {
    var dbs := DatabasesOf(sc.databases, c.name);
    var cmds := ClusterCmds(sc.key, sc.res.canonical[c.host], c.name, dbs, |dbs|);
    var ids :| Chain(g, ids, cmds) && ids[|ids| - 1] < limit;
    ChainGrows(g, h, ids, cmds);
  }

  /** The first clusters are set up. */
  ghost predicate AllClustersSetUp(g: seq<Node>, sc: Scope, n: nat)
    requires n <= |sc.clusters|
    decreases n, 0
  {
    n == 0 || SetUpThrough(g, sc, n - 1)
  }

  ghost predicate SetUpThrough(g: seq<Node>, sc: Scope, i: nat)
    requires i < |sc.clusters|
    decreases i, 1
  {
    AllClustersSetUp(g, sc, i) && ClusterSetUp(g, sc, sc.clusters[i], |g|)
  }

  lemma {:induction false} AllClustersAre(g: seq<Node>, sc: Scope, n: nat, c: Cluster)
    requires n <= |sc.clusters| && AllClustersSetUp(g, sc, n) && c in sc.clusters[..n]
    ensures ClusterSetUp(g, sc, c, |g|)
    decreases n
  {
    assert SetUpThrough(g, sc, n - 1);
    if c != sc.clusters[n - 1] { AllClustersAre(g, sc, n - 1, c); }
  }

  lemma {:induction false} AllClustersGrow(g: seq<Node>, h: seq<Node>, sc: Scope, n: nat)
    requires g <= h && n <= |sc.clusters| && AllClustersSetUp(g, sc, n)
    ensures AllClustersSetUp(h, sc, n)
    decreases n
  {
    if n > 0 {
      assert SetUpThrough(g, sc, n - 1);
      AllClustersGrow(g, h, sc, n - 1);
      ClusterSetUpGrows(g, h, sc, sc.clusters[n - 1], |g|, |h|);
      assert SetUpThrough(h, sc, n - 1);
    }
  }

  // ---- Backups ----

  /** The backup tools of a host, registered after every command of its clusters. */
  ghost predicate BackupAt(g: seq<Node>, sc: Scope, host: string, i: nat) {
    && i < |g| && g[i].cmd == Command(sc.key, host, BackupInstall, "")
    && forall c | c in sc.clusters && c.host in sc.res.canonical && sc.res.canonical[c.host] == host ::
      ClusterSetUp(g, sc, c, i)
  }

  /** The timers of one cluster's databases that are backed up. */
  function TimersOf(scope: string, host: string, cluster: string, dbs: seq<Database>): seq<Command> {
    if dbs == [] then []
    else (if dbs[0].backup then [Command(scope, host, BackupTimer(dbs[0].name), cluster)] else [])
         + TimersOf(scope, host, cluster, dbs[1..])
  }

  /** The timers of a host: its clusters in the order given, the databases of each by name. */
  function TimerCmds(sc: Scope, host: string, clusters: seq<Cluster>): seq<Command> {
    if clusters == [] then []
    else (if clusters[0].host in sc.res.canonical && sc.res.canonical[clusters[0].host] == host
          then TimersOf(sc.key, host, clusters[0].name, DatabasesOf(sc.databases, clusters[0].name)) else [])
         + TimerCmds(sc, host, clusters[1..])
  }

  lemma {:induction false} TimersOfAre(scope: string, host: string, cluster: string, dbs: seq<Database>)
    ensures forall cmd | cmd in TimersOf(scope, host, cluster, dbs) ::
      cmd.kind.BackupTimer? && cmd.scope == scope && cmd.host == host
    ensures forall db | db in dbs && db.backup ::
      Command(scope, host, BackupTimer(db.name), cluster) in TimersOf(scope, host, cluster, dbs)
  {
    if dbs != [] { TimersOfAre(scope, host, cluster, dbs[1..]); }
  }

  lemma {:induction false} TimerCmdsAre(sc: Scope, host: string, clusters: seq<Cluster>)
    ensures forall cmd | cmd in TimerCmds(sc, host, clusters) ::
      cmd.kind.BackupTimer? && cmd.scope == sc.key && cmd.host == host
    ensures forall c, db | c in clusters && c.host in sc.res.canonical && sc.res.canonical[c.host] == host
                           && db in sc.databases && db.cluster == c.name && db.backup ::
      Command(sc.key, host, BackupTimer(db.name), c.name) in TimerCmds(sc, host, clusters)
  {
    if clusters != [] {
      TimersOfAre(sc.key, host, clusters[0].name, DatabasesOf(sc.databases, clusters[0].name));
      TimerCmdsAre(sc, host, clusters[1..]);
    }
  }

  /** Each of these is registered to follow `dep` and nothing else. */
  ghost predicate AllFollow(g: seq<Node>, cmds: seq<Command>, dep: nat) {
    forall cmd | cmd in cmds :: Follows(g, cmd, dep)
  }

  ghost predicate Follows(g: seq<Node>, cmd: Command, dep: nat) {
    exists i :: 0 <= i < |g| && g[i].cmd == cmd && g[i].deps == {dep}
  }

  lemma AllFollowGrows(g: seq<Node>, h: seq<Node>, cmds: seq<Command>, dep: nat)
    requires g <= h && AllFollow(g, cmds, dep)
    ensures AllFollow(h, cmds, dep)
  {
    forall cmd | cmd in cmds ensures Follows(h, cmd, dep) {
      var i :| 0 <= i < |g| && g[i].cmd == cmd && g[i].deps == {dep};
      assert h[i] == g[i];
    }
  }

  /** The credential after the tools, then every timer of the host after the credential. */
  ghost predicate TimersAt(g: seq<Node>, sc: Scope, host: string, tools: nat, credential: nat) {
    && credential < |g| && g[credential].cmd == Command(sc.key, host, BackupCredential, "")
    && g[credential].deps == {tools}
    && AllFollow(g, TimerCmds(sc, host, sc.clusters), credential)
  }

  ghost predicate Timed(g: seq<Node>, sc: Scope, host: string, tools: nat) {
    exists credential: nat :: TimersAt(g, sc, host, tools, credential)
  }

  lemma TimedGrows(g: seq<Node>, h: seq<Node>, sc: Scope, host: string, tools: nat)
    requires g <= h && Timed(g, sc, host, tools)
    ensures Timed(h, sc, host, tools)
  {
    var credential: nat :| TimersAt(g, sc, host, tools, credential);
    AllFollowGrows(g, h, TimerCmds(sc, host, sc.clusters), credential);
    assert TimersAt(h, sc, host, tools, credential);
  }

  ghost predicate BackedUp(g: seq<Node>, sc: Scope, host: string) {
    exists i: nat :: BackupAt(g, sc, host, i) && Timed(g, sc, host, i)
  }

  lemma BackedUpGrows(g: seq<Node>, h: seq<Node>, sc: Scope, host: string)
    requires g <= h && BackedUp(g, sc, host)
    ensures BackedUp(h, sc, host)
  {
    var i: nat :| BackupAt(g, sc, host, i) && Timed(g, sc, host, i);
    TimedGrows(g, h, sc, host, i);
    forall c | c in sc.clusters && c.host in sc.res.canonical && sc.res.canonical[c.host] == host
      ensures ClusterSetUp(h, sc, c, i)
    {
      ClusterSetUpGrows(g, h, sc, c, i, i);
    }
    assert BackupAt(h, sc, host, i);
  }

  ghost predicate AllBackedUp(g: seq<Node>, sc: Scope, hosts: set<string>) {
    forall h | h in hosts :: BackedUp(g, sc, h)
  }

  lemma AllBackedUpGrows(g: seq<Node>, h: seq<Node>, sc: Scope, hosts: set<string>)
    requires g <= h && AllBackedUp(g, sc, hosts)
    ensures AllBackedUp(h, sc, hosts)
  {
    forall o | o in hosts ensures BackedUp(h, sc, o) { BackedUpGrows(g, h, sc, o); }
  }

  // ---- Grants ----

  /** A role minted for this grant, on the database it names. */
  predicate MintFor(cmd: Command, sc: Scope, gr: Grant) {
    cmd.kind.Mint? && cmd.kind.database == gr.database && cmd.scope == GrantTarget(sc, gr).0 && cmd.name == gr.service
  }

  /** The command that creates this database on this cluster. */
  predicate Creates(cmd: Command, scope: string, cluster: string, database: string) {
    cmd.kind == CreateDatabase(database) && cmd.scope == scope && cmd.name == cluster
  }

  predicate CreatesFor(db: Command, mint: Command) {
    mint.kind.Mint? && Creates(db, mint.scope, mint.kind.cluster, mint.kind.database)
  }

  ghost predicate MintAt(g: seq<Node>, sc: Scope, gr: Grant, i: nat) {
    && i < |g| && MintFor(g[i].cmd, sc, gr)
    && exists d :: d in g[i].deps && d < |g| && CreatesFor(g[d].cmd, g[i].cmd)
  }

  ghost predicate GrantMinted(g: seq<Node>, sc: Scope, gr: Grant) { exists i: nat :: MintAt(g, sc, gr, i) }

  lemma GrantMintedGrows(g: seq<Node>, h: seq<Node>, sc: Scope, gr: Grant)
    requires g <= h && GrantMinted(g, sc, gr)
    ensures GrantMinted(h, sc, gr)
  {
    var i: nat :| MintAt(g, sc, gr, i);
    var d :| d in g[i].deps && d < |g| && CreatesFor(g[d].cmd, g[i].cmd);
    assert h[i] == g[i] && h[d] == g[d];
    assert MintAt(h, sc, gr, i);
  }

  ghost predicate GrantsMinted(g: seq<Node>, sc: Scope, n: nat)
    requires n <= |sc.grants|
  {
    forall i | 0 <= i < n :: GrantMinted(g, sc, sc.grants[i])
  }

  lemma GrantsMintedGrow(g: seq<Node>, h: seq<Node>, sc: Scope, n: nat)
    requires g <= h && n <= |sc.grants| && GrantsMinted(g, sc, n)
    ensures GrantsMinted(h, sc, n)
  {
    forall i | 0 <= i < n ensures GrantMinted(h, sc, sc.grants[i]) { GrantMintedGrows(g, h, sc, sc.grants[i]); }
  }

  // ---- Collectors ----

  ghost predicate MonitorIn(g: seq<Node>, deps: set<nat>, sc: Scope, host: string, cluster: string) {
    exists m :: m in deps && m < |g| && g[m].cmd == Command(sc.key, host, MonitorMint(cluster), cluster)
  }

  ghost predicate MonitorsIn(g: seq<Node>, deps: set<nat>, sc: Scope, host: string, clusters: set<string>) {
    forall c | c in clusters :: MonitorIn(g, deps, sc, host, c)
  }

  lemma MonitorsInGrow(g: seq<Node>, h: seq<Node>, deps: set<nat>, more: set<nat>, sc: Scope, host: string,
                       clusters: set<string>)
    requires g <= h && deps <= more && MonitorsIn(g, deps, sc, host, clusters)
    ensures MonitorsIn(h, more, sc, host, clusters)
  {
    forall c | c in clusters ensures MonitorIn(h, more, sc, host, c) {
      var m :| m in deps && m < |g| && g[m].cmd == Command(sc.key, host, MonitorMint(c), c);
      assert h[m] == g[m];
    }
  }

  /** A host's collector, configured after the monitor role of every cluster it scrapes. */
  ghost predicate CollectorAt(g: seq<Node>, sc: Scope, host: string, i: nat) {
    i < |g| && g[i].cmd == Command(sc.key, host, CollectorConfig, "")
      && MonitorsIn(g, g[i].deps, sc, host, MonitoredOn(sc, host))
  }

  ghost predicate Observed(g: seq<Node>, sc: Scope, host: string) { exists i: nat :: CollectorAt(g, sc, host, i) }

  lemma ObservedGrows(g: seq<Node>, h: seq<Node>, sc: Scope, host: string)
    requires g <= h && Observed(g, sc, host)
    ensures Observed(h, sc, host)
  {
    var i: nat :| CollectorAt(g, sc, host, i);
    MonitorsInGrow(g, h, g[i].deps, g[i].deps, sc, host, MonitoredOn(sc, host));
    assert CollectorAt(h, sc, host, i);
  }

  ghost predicate AllObserved(g: seq<Node>, sc: Scope, hosts: set<string>) {
    forall h | h in hosts :: Observed(g, sc, h)
  }

  lemma AllObservedGrows(g: seq<Node>, h: seq<Node>, sc: Scope, hosts: set<string>)
    requires g <= h && AllObserved(g, sc, hosts)
    ensures AllObserved(h, sc, hosts)
  {
    forall o | o in hosts ensures Observed(h, sc, o) { ObservedGrows(g, h, sc, o); }
  }

  // ---- All of it ----

  /** Everything a scope declares about its databases is registered. */
  ghost predicate DatabasesDeployed(g: seq<Node>, sc: Scope, otlp: bool) {
    && AllClustersSetUp(g, sc, |sc.clusters|) && AllBackedUp(g, sc, BackedUpHosts(sc))
    && GrantsMinted(g, sc, |sc.grants|)
    && (otlp ==> AllObserved(g, sc, sc.compute))
  }

  lemma DatabasesDeployedGrows(g: seq<Node>, h: seq<Node>, sc: Scope, otlp: bool)
    requires g <= h && DatabasesDeployed(g, sc, otlp)
    ensures DatabasesDeployed(h, sc, otlp)
  {
    AllClustersGrow(g, h, sc, |sc.clusters|);
    AllBackedUpGrows(g, h, sc, BackedUpHosts(sc));
    GrantsMintedGrow(g, h, sc, |sc.grants|);
    if otlp { AllObservedGrows(g, h, sc, sc.compute); }
  }
}
