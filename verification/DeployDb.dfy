/** Database clusters, role mints and monitor mints (program/dbcluster.go, program/program.go
    provisionObservability). */
module DeployDb {
  import opened Common
  import opened Mesh
  import opened Dag
  import opened DeployOrder
  import opened DeployRun
  import opened DeployGoals

  // ---- Lanes while the graph grows ----

  lemma LastInSnoc(g: seq<Node>, n: Node, lane: Lane)
    ensures LastIn(g + [n], lane) == if LaneOf(n.cmd) == lane then Some(|g|) else LastIn(g, lane)
  {
    assert (g + [n])[..|g|] == g;
  }

  /** Commands of other lanes leave a lane's newest command alone. */
  lemma {:induction false} LastInKept(g: seq<Node>, h: seq<Node>, lane: Lane)
    requires g <= h && forall i | |g| <= i < |h| :: LaneOf(h[i].cmd) != lane
    ensures LastIn(h, lane) == LastIn(g, lane)
    decreases |h|
  {
    if |g| < |h| {
      LastInKept(g, h[..|h| - 1], lane);
    } else {
      assert g == h;
    }
  }

  lemma AdmitSetup(g: seq<Node>, cmd: Command, deps: set<nat>)
    requires LaneOf(cmd).HostSetup? && Deps(LastIn(g, LaneOf(cmd))) <= deps
    requires forall d | d in deps :: d < |g| && !g[d].cmd.kind.MonitorMint? && !g[d].cmd.kind.CollectorConfig?
    ensures Admissible(g, Node(cmd, deps))
  {
    SetupIsOrdinary(cmd);
    assert forall a | 0 <= a < |g| :: !OnCluster(g[a].cmd, cmd);
  }

  lemma SetupIsOrdinary(cmd: Command)
    requires LaneOf(cmd).HostSetup?
    ensures !Restarts(cmd) && !NeedsUnit(cmd) && !cmd.kind.Reload? && !cmd.kind.MonitorMint?
  {
  }

  /** The newest setup command of each host, as recorded while clusters are realized. */
  ghost predicate TailsAre(tails: map<string, nat>, g: seq<Node>, scope: string) {
    forall h :: LastIn(g, HostSetup(scope, h)) == if h in tails then Some(tails[h]) else None
  }

  ghost predicate TailsOk(tails: map<string, nat>, g: seq<Node>) {
    forall h | h in tails :: tails[h] < |g| && LaneOf(g[tails[h]].cmd).HostSetup?
  }

  lemma TailsAreOk(tails: map<string, nat>, g: seq<Node>, scope: string)
    requires TailsAre(tails, g, scope)
    ensures TailsOk(tails, g)
  {
    forall h | h in tails ensures tails[h] < |g| && LaneOf(g[tails[h]].cmd).HostSetup? {
      assert LastIn(g, HostSetup(scope, h)) == Some(tails[h]);
      LastInIs(g, HostSetup(scope, h));
    }
  }

  function Tail(tails: map<string, nat>, host: string): Option<nat> {
    if host in tails then Some(tails[host]) else None
  }

  // ---- Setting up a cluster ----

  predicate SetUpKind(scope: string, host: string, cmd: Command) {
    cmd.scope == scope && (cmd.kind.Volume? || AfterBackupTools(cmd.kind) || LaneOf(cmd) == HostSetup(scope, host))
  }

  /** Every node added is a setup command of this host. */
  ghost predicate SetUpOn(scope: string, host: string, g: seq<Node>, h: seq<Node>) {
    g <= h && forall i | |g| <= i < |h| :: SetUpKind(scope, host, h[i].cmd)
  }

  lemma SetUpTransitive(scope: string, host: string, a: seq<Node>, b: seq<Node>, c: seq<Node>)
    requires SetUpOn(scope, host, a, b) && SetUpOn(scope, host, b, c)
    ensures SetUpOn(scope, host, a, c)
  {
  }

  /** One setup command, chained after the host's previous one. */
  method RegisterSetup(d: Deployment, cmd: Command, last: Option<nat>, others: set<nat>) returns (id: nat)
    requires d.Valid() && LaneOf(cmd).HostSetup? && last == LastIn(d.nodes, LaneOf(cmd))
    requires forall e | e in others :: e < |d.nodes| && (d.nodes[e].cmd.kind.Gate? || d.nodes[e].cmd.kind.Volume?)
    modifies d`nodes
    ensures d.Valid() && SetUpOn(cmd.scope, cmd.host, old(d.nodes), d.nodes)
    ensures id == |old(d.nodes)| && d.nodes == old(d.nodes) + [Node(cmd, others + Deps(last))]
    ensures LastIn(d.nodes, LaneOf(cmd)) == Some(id)
  {
    LastInIs(d.nodes, LaneOf(cmd));
    AdmitSetup(d.nodes, cmd, others + Deps(last));
    LastInSnoc(d.nodes, Node(cmd, others + Deps(last)), LaneOf(cmd));
    id := d.Register(cmd, others + Deps(last));
  }

  method CreateVolume(d: Deployment, scope: string, host: string, cluster: string, gate: nat) returns (volume: nat)
    requires d.Valid() && gate < |d.nodes| && d.nodes[gate].cmd.kind.Gate?
    modifies d`nodes
    ensures d.Valid() && SetUpOn(scope, host, old(d.nodes), d.nodes)
    ensures LastIn(d.nodes, HostSetup(scope, host)) == LastIn(old(d.nodes), HostSetup(scope, host))
    ensures volume < |d.nodes| && d.nodes[volume].cmd.kind.Volume?
  {
    var cmd := Command(scope, host, Volume, cluster);
    AdmitPlain(d.nodes, cmd, {gate});
    LastInSnoc(d.nodes, Node(cmd, {gate}), HostSetup(scope, host));
    volume := d.Register(cmd, {gate});
  }

  /** Install, mount, initdb, configure: the part of a cluster that comes before its databases. */
  method SetUpPostmaster(d: Deployment, scope: string, host: string, cluster: Cluster, gate: nat, prev: Option<nat>)
    returns (config: nat, ghost ids: seq<nat>)
    requires d.Valid() && gate < |d.nodes| && d.nodes[gate].cmd.kind.Gate?
    requires prev == LastIn(d.nodes, HostSetup(scope, host))
    modifies d`nodes
    ensures d.Valid() && SetUpOn(scope, host, old(d.nodes), d.nodes)
    ensures LastIn(d.nodes, HostSetup(scope, host)) == Some(config)
    ensures Chain(d.nodes, ids, PostmasterCmds(scope, host, cluster.name)) && ids[3] == config
    ensures {gate} + Deps(prev) <= d.nodes[ids[0]].deps
  {
    ghost var g2;
    var install, mount;
    install, mount, g2 := MountCluster(d, scope, host, cluster, gate, prev);
    ghost var g3 := d.nodes;
    var init;
    ghost var g4;
    init, config, g4 := FinishPostmaster(d, scope, host, cluster.name, mount);
    SetUpTransitive(scope, host, old(d.nodes), g3, d.nodes);
    ids := [install, mount, init, config];
    PostmasterChain(g2, g3, g4, d.nodes, ids, PostmasterCmds(scope, host, cluster.name));
  }

  method MountCluster(d: Deployment, scope: string, host: string, cluster: Cluster, gate: nat, prev: Option<nat>)
    returns (install: nat, mount: nat, ghost between: seq<Node>)
    requires d.Valid() && gate < |d.nodes| && d.nodes[gate].cmd.kind.Gate?
          && prev == LastIn(d.nodes, HostSetup(scope, host))
    modifies d`nodes
    ensures d.Valid() && SetUpOn(scope, host, old(d.nodes), d.nodes)
         && LastIn(d.nodes, HostSetup(scope, host)) == Some(mount)
    ensures old(d.nodes) <= between <= d.nodes && install < |between| && mount < |d.nodes|
    ensures between[install] == Node(Command(scope, host, Install, cluster.name), {gate} + Deps(prev))
    ensures d.nodes[mount].cmd == Command(scope, host, Mount, cluster.name) && install in d.nodes[mount].deps
  {
    var volume;
    volume, install := StartCluster(d, scope, host, cluster.name, gate, prev);
    between := d.nodes;
    mount := RegisterSetup(d, Command(scope, host, Mount, cluster.name), Some(install),
                           if cluster.attached then {volume} else {});
    SetUpTransitive(scope, host, old(d.nodes), between, d.nodes);
  }

  method StartCluster(d: Deployment, scope: string, host: string, cluster: string, gate: nat, prev: Option<nat>)
    returns (volume: nat, install: nat)
    requires d.Valid() && gate < |d.nodes| && d.nodes[gate].cmd.kind.Gate?
          && prev == LastIn(d.nodes, HostSetup(scope, host))
    modifies d`nodes
    ensures d.Valid() && SetUpOn(scope, host, old(d.nodes), d.nodes)
         && LastIn(d.nodes, HostSetup(scope, host)) == Some(install)
    ensures volume < |d.nodes| && d.nodes[volume].cmd.kind.Volume?
    ensures install < |d.nodes| && d.nodes[install] == Node(Command(scope, host, Install, cluster), {gate} + Deps(prev))
  {
    volume := CreateVolume(d, scope, host, cluster, gate);
    ghost var g1 := d.nodes;
    install := RegisterSetup(d, Command(scope, host, Install, cluster), prev, {gate});
    SetUpTransitive(scope, host, old(d.nodes), g1, d.nodes);
  }

  method FinishPostmaster(d: Deployment, scope: string, host: string, cluster: string, mount: nat)
    returns (init: nat, config: nat, ghost between: seq<Node>)
    requires d.Valid() && LastIn(d.nodes, HostSetup(scope, host)) == Some(mount)
    modifies d`nodes
    ensures d.Valid() && SetUpOn(scope, host, old(d.nodes), d.nodes)
         && LastIn(d.nodes, HostSetup(scope, host)) == Some(config)
    ensures old(d.nodes) <= between <= d.nodes && init < |between| && config < |d.nodes|
    ensures between[init].cmd == Command(scope, host, Init, cluster) && mount in between[init].deps
    ensures d.nodes[config].cmd == Command(scope, host, Config, cluster) && init in d.nodes[config].deps
  {
    init := RegisterSetup(d, Command(scope, host, Init, cluster), Some(mount), {});
    between := d.nodes;
    config := RegisterSetup(d, Command(scope, host, Config, cluster), Some(init), {});
    SetUpTransitive(scope, host, old(d.nodes), between, d.nodes);
  }

  lemma PostmasterChain(g2: seq<Node>, g3: seq<Node>, g4: seq<Node>, g5: seq<Node>, ids: seq<nat>, cmds: seq<Command>)
    requires g2 <= g3 && g3 <= g4 && g4 <= g5 && |ids| == |cmds| == 4
    requires ids[0] < |g2| && ids[1] < |g3| && ids[2] < |g4| && ids[3] < |g5|
    requires g2[ids[0]].cmd == cmds[0] && g3[ids[1]].cmd == cmds[1] && g4[ids[2]].cmd == cmds[2]
          && g5[ids[3]].cmd == cmds[3]
    requires ids[0] in g3[ids[1]].deps && ids[1] in g4[ids[2]].deps && ids[2] in g5[ids[3]].deps
    ensures Chain(g5, ids, cmds) && g5[ids[0]] == g2[ids[0]]
  {
    assert g5[ids[0]] == g2[ids[0]] && g5[ids[1]] == g3[ids[1]] && g5[ids[2]] == g4[ids[2]];
  }

  type Key = (string, string)

  /** What a provisioner knows: its database's cluster and creating command, and the newest mint on it. */
  datatype Provisioner = Provisioner(cluster: string, dependsOn: nat, lastMint: Option<nat>)

  ghost predicate ProvisionerOk(p: Provisioner, k: Key, g: seq<Node>) {
    && p.dependsOn < |g| && Creates(g[p.dependsOn].cmd, k.0, p.cluster, k.1)
    && p.lastMint == LastIn(g, RoleCatalog(k.0, k.1))
  }

  ghost predicate MintKnown(v: map<Key, Provisioner>, g: seq<Node>, i: nat)
    requires i < |g|
  {
    g[i].cmd.kind.Mint? ==>
      var k := (g[i].cmd.scope, g[i].cmd.kind.database);
      k in v && v[k].cluster == g[i].cmd.kind.cluster
  }

  /** Every provisioner agrees with the graph, and every mint in it came from its database's provisioner. */
  ghost predicate Agree(v: map<Key, Provisioner>, g: seq<Node>) {
    && (forall k {:trigger ProvisionerOk(v[k], k, g)} | k in v :: ProvisionerOk(v[k], k, g))
    && (forall i {:trigger MintKnown(v, g, i)} | 0 <= i < |g| :: MintKnown(v, g, i))
  }

  lemma AgreeKept(v: map<Key, Provisioner>, g: seq<Node>, h: seq<Node>)
    requires Agree(v, g) && g <= h && forall i | |g| <= i < |h| :: !h[i].cmd.kind.Mint?
    ensures Agree(v, h)
  {
    forall k | k in v ensures ProvisionerOk(v[k], k, h) {
      assert ProvisionerOk(v[k], k, g);
      LastInKept(g, h, RoleCatalog(k.0, k.1));
    }
    forall i | 0 <= i < |h| ensures MintKnown(v, h, i) {
      if i < |g| { assert MintKnown(v, g, i); }
    }
  }

  lemma AgreeBind(v: map<Key, Provisioner>, g: seq<Node>, k: Key, p: Provisioner)
    requires Agree(v, g) && NoMints(g, k.0) && p.lastMint == None
    requires p.dependsOn < |g| && Creates(g[p.dependsOn].cmd, k.0, p.cluster, k.1)
    ensures Agree(v[k := p], g)
  {
    var w := v[k := p];
    NoMintsMeansNoLast(g, k.0, k.1);
    forall o | o in w ensures ProvisionerOk(w[o], o, g) {
      if o != k { assert ProvisionerOk(v[o], o, g); }
    }
    forall i | 0 <= i < |g| ensures MintKnown(w, g, i) { assert MintKnown(v, g, i); }
  }

  lemma AgreeMint(v: map<Key, Provisioner>, g: seq<Node>, k: Key, n: Node)
    requires Agree(v, g) && k in v && n.cmd.kind == Mint(v[k].cluster, k.1) && n.cmd.scope == k.0
    ensures Agree(v[k := v[k].(lastMint := Some(|g|))], g + [n])
  {
    var w, h := v[k := v[k].(lastMint := Some(|g|))], g + [n];
    forall o | o in w ensures ProvisionerOk(w[o], o, h) {
      assert ProvisionerOk(v[o], o, g);
      LastInSnoc(g, n, RoleCatalog(o.0, o.1));
    }
    forall i | 0 <= i < |h| ensures MintKnown(w, h, i) {
      if i < |g| { assert MintKnown(v, g, i); }
    }
  }

  /** The scope's databases are the declared ones, each on its own cluster. */
  ghost predicate KnownIn(v: map<Key, Provisioner>, sc: Scope) {
    forall k | k in v && k.0 == sc.key :: IsDeclared(sc, k.1, v[k].cluster)
  }

  ghost predicate IsDeclared(sc: Scope, name: string, cluster: string) {
    exists db :: db in sc.databases && db.name == name && db.cluster == cluster
  }

  lemma KnownBind(v: map<Key, Provisioner>, sc: Scope, db: Database, p: Provisioner)
    requires KnownIn(v, sc) && db in sc.databases && p.cluster == db.cluster
    ensures KnownIn(v[(sc.key, db.name) := p], sc)
  {
    assert IsDeclared(sc, db.name, p.cluster);
  }

  ghost predicate NoMints(g: seq<Node>, scope: string) {
    forall i | 0 <= i < |g| && g[i].cmd.kind.Mint? :: g[i].cmd.scope != scope
  }

  lemma NoMintsMeansNoLast(g: seq<Node>, scope: string, database: string)
    requires NoMints(g, scope)
    ensures LastIn(g, RoleCatalog(scope, database)) == None
  {
    LastInIs(g, RoleCatalog(scope, database));
  }

  /** Mints one database's roles one at a time. */
  class RoleProvisioner {
    const scope: string
    const cluster: string
    const database: string
    const dependsOn: nat
    var lastMint: Option<nat>

    constructor (scope: string, cluster: string, database: string, dependsOn: nat)
      ensures this.scope == scope && this.cluster == cluster && this.database == database
      ensures Value() == Provisioner(cluster, dependsOn, None)
    {
      this.scope, this.cluster, this.database, this.dependsOn := scope, cluster, database, dependsOn;
      lastMint := None;
    }

    ghost function Value(): Provisioner
      reads this
    {
      Provisioner(cluster, dependsOn, lastMint)
    }

    /** Waits for the database and for the previous mint on it. */
    method ProvisionRole(d: Deployment, service: string)
      requires d.Valid() && ProvisionerOk(Value(), (scope, database), d.nodes)
      modifies this`lastMint, d`nodes
      ensures d.Valid() && Value() == old(Value()).(lastMint := Some(|old(d.nodes)|))
      ensures d.nodes ==
        old(d.nodes) + [Node(Command(scope, "", Mint(cluster, database), service), {dependsOn} + Deps(old(lastMint)))]
    {
      var cmd := Command(scope, "", Mint(cluster, database), service);
      var deps := {dependsOn} + Deps(lastMint);
      LastInIs(d.nodes, RoleCatalog(scope, database));
      AdmitMint(d.nodes, cmd, deps);
      var mint := d.Register(cmd, deps);
      lastMint := Some(mint);
    }
  }

  lemma AdmitMint(g: seq<Node>, cmd: Command, deps: set<nat>)
    requires cmd.kind.Mint? && Deps(LastIn(g, LaneOf(cmd))) <= deps
    requires forall d | d in deps :: d < |g| && (g[d].cmd.kind.CreateDatabase? || g[d].cmd.kind.Mint?)
    ensures Admissible(g, Node(cmd, deps))
  {
    MintIsOrdinary(cmd);
    assert forall a | 0 <= a < |g| :: !OnCluster(g[a].cmd, cmd);
  }

  lemma MintIsOrdinary(cmd: Command)
    requires cmd.kind.Mint?
    ensures !Restarts(cmd) && !NeedsUnit(cmd) && !cmd.kind.Reload? && !cmd.kind.MonitorMint?
  {
  }

  /** A mint for a service on a database, waiting for the command that creates it. */
  ghost predicate MintFrom(g: seq<Node>, k: Key, service: string, i: nat) {
    && i < |g| && g[i].cmd.kind.Mint? && g[i].cmd.kind.database == k.1 && g[i].cmd.scope == k.0
    && g[i].cmd.name == service
    && exists d :: d in g[i].deps && d < |g| && CreatesFor(g[d].cmd, g[i].cmd)
  }

  lemma MintIsFrom(g: seq<Node>, k: Key, service: string, p: Provisioner)
    requires ProvisionerOk(p, k, g)
    ensures MintFrom(g + [Node(Command(k.0, "", Mint(p.cluster, k.1), service), {p.dependsOn} + Deps(p.lastMint))], k,
                     service, |g|)
  {
    var n := Node(Command(k.0, "", Mint(p.cluster, k.1), service), {p.dependsOn} + Deps(p.lastMint));
    assert p.dependsOn in n.deps && (g + [n])[p.dependsOn] == g[p.dependsOn];
  }

  /** The next mint on a database. */
  function MintNode(p: Provisioner, k: Key, service: string): Node {
    Node(Command(k.0, "", Mint(p.cluster, k.1), service), {p.dependsOn} + Deps(p.lastMint))
  }

  lemma MintRegistered(v: map<Key, Provisioner>, g: seq<Node>, k: Key, service: string)
    requires Agree(v, g) && k in v
    ensures ProvisionerOk(v[k], k, g)
    ensures var h := g + [MintNode(v[k], k, service)];
      && Agree(v[k := v[k].(lastMint := Some(|g|))], h) && MintsOf(k.0, g, h) && MintFrom(h, k, service, |g|)
  {
    assert ProvisionerOk(v[k], k, g);
    AgreeMint(v, g, k, MintNode(v[k], k, service));
    MintIsFrom(g, k, service, v[k]);
  }

  lemma MintIsFor(g: seq<Node>, sc: Scope, gr: Grant, i: nat)
    requires MintFrom(g, GrantTarget(sc, gr), gr.service, i)
    ensures GrantMinted(g, sc, gr)
  {
    assert MintAt(g, sc, gr, i);
  }

  /** Every database of every scope realized so far, with the one provisioner that mints its roles. */
  class Databases {
    var provisioners: map<Key, RoleProvisioner>
    ghost var view: map<Key, Provisioner>
    ghost var repr: set<RoleProvisioner>

    constructor ()
      ensures provisioners == map[] && view == map[] && repr == {}
    {
      provisioners, view, repr := map[], map[], {};
    }

    /** Each provisioner is filed under its own database, and `view` is what they know. */
    ghost predicate Keyed()
      reads this, repr
    {
      && view.Keys == provisioners.Keys
      && forall k | k in provisioners ::
           && provisioners[k] in repr
           && provisioners[k].scope == k.0 && provisioners[k].database == k.1 && provisioners[k].Value() == view[k]
    }

    ghost predicate Consistent(g: seq<Node>)
      reads this, repr
    {
      Keyed() && Agree(view, g)
    }

    ghost predicate Known(sc: Scope)
      reads this
    {
      KnownIn(view, sc)
    }

    /** A fresh provisioner for a database nobody has minted on. */
    method Bind(scope: string, cluster: string, name: string, created: nat)
      requires Keyed()
      modifies this
      ensures Keyed() && view == old(view)[(scope, name) := Provisioner(cluster, created, None)]
      ensures provisioners.Keys == old(provisioners).Keys + {(scope, name)}
      ensures fresh(repr - old(repr))
    {
      var p := new RoleProvisioner(scope, cluster, name, created);
      provisioners := provisioners[(scope, name) := p];
      view := view[(scope, name) := Provisioner(cluster, created, None)];
      repr := repr + {p};
    }

    /** Creates one logical database after `last`, and the provisioner bound to it. */
    method AddDatabase(d: Deployment, sc: Scope, host: string, db: Database, last: nat) returns (id: nat)
      requires d.Valid() && Keyed() && LastIn(d.nodes, HostSetup(sc.key, host)) == Some(last)
      modifies this, d`nodes
      ensures d.Valid() && Keyed() && id == |old(d.nodes)|
      ensures d.nodes == old(d.nodes) + [Node(Command(sc.key, host, CreateDatabase(db.name), db.cluster), {last})]
      ensures view == old(view)[(sc.key, db.name) := Provisioner(db.cluster, id, None)]
      ensures fresh(repr - old(repr))
    {
      id := RegisterSetup(d, Command(sc.key, host, CreateDatabase(db.name), db.cluster), Some(last), {});
      assert {} + Deps(Some(last)) == {last};
      Bind(sc.key, db.cluster, db.name, id);
    }

    /** The databases of one cluster, each after the one before it; returns the host's new tail. */
    method AddDatabases(d: Deployment, sc: Scope, host: string, dbs: seq<Database>, config: nat) returns (tail: nat)
      requires d.Valid() && Keyed() && LastIn(d.nodes, HostSetup(sc.key, host)) == Some(config)
      modifies this, d`nodes
      ensures d.Valid() && Keyed() && fresh(repr - old(repr))
      ensures AddedTo(old(d.nodes), old(view), sc.key, host, dbs, |dbs|, config, d.nodes, view, tail)
    {
      tail := config;
      ghost var g, v := d.nodes, view;
      for i: nat := 0 to |dbs|
        invariant d.Valid() && Keyed() && fresh(repr - old(repr))
        invariant AddedTo(g, v, sc.key, host, dbs, i, config, d.nodes, view, tail)
      {
        tail := AddNext(d, sc, host, dbs, i, tail, g, v, config);
      }
    }

    method AddNext(d: Deployment, sc: Scope, host: string, dbs: seq<Database>, i: nat, last: nat,
                   ghost g: seq<Node>, ghost v: map<Key, Provisioner>, ghost config: nat) returns (tail: nat)
      requires d.Valid() && Keyed() && i < |dbs| && LastIn(g, HostSetup(sc.key, host)) == Some(config)
      requires AddedTo(g, v, sc.key, host, dbs, i, config, d.nodes, view, last)
      modifies this, d`nodes
      ensures d.Valid() && Keyed() && fresh(repr - old(repr))
      ensures AddedTo(g, v, sc.key, host, dbs, i + 1, config, d.nodes, view, tail)
    {
      ghost var h, w := d.nodes, view;
      AddedTail(g, v, sc.key, host, dbs, i, config, h, w, last);
      tail := AddDatabase(d, sc, host, dbs[i], last);
      AddedStep(g, v, sc.key, host, dbs, i, config, h, w, last);
    }

    ghost predicate Ready(d: Deployment, sc: Scope)
      reads d, this, repr
    {
      d.Valid() && Consistent(d.nodes) && Known(sc)
    }

    /** One cluster on its host; co-located clusters queue behind the recorded tail. */
    method SetUpCluster(d: Deployment, sc: Scope, host: string, cluster: Cluster, gate: nat, tails0: map<string, nat>)
      returns (tails: map<string, nat>)
      requires d.Valid() && Consistent(d.nodes) && NoMints(d.nodes, sc.key) && Known(sc)
      requires gate < |d.nodes| && d.nodes[gate].cmd.kind.Gate? && TailsAre(tails0, d.nodes, sc.key)
      requires cluster.host in sc.res.canonical && host == sc.res.canonical[cluster.host]
      modifies this, d`nodes
      ensures d.Valid() && SetUpOn(sc.key, host, old(d.nodes), d.nodes) && Consistent(d.nodes) && Known(sc)
      ensures TailsAre(tails, d.nodes, sc.key) && ClusterSetUp(d.nodes, sc, cluster, |d.nodes|)
      ensures provisioners.Keys == old(provisioners).Keys + KeysOn(sc, {cluster.name})
      ensures fresh(repr - old(repr))
    {
      ghost var post;
      var config;
      ghost var g0, v := d.nodes, view;
      assert LastIn(d.nodes, HostSetup(sc.key, host)) == Tail(tails0, host);
      config, post := SetUpPostmaster(d, sc.key, host, cluster, gate, Tail(tails0, host));
      ghost var was := d.nodes;
      SetUpAddsNoMints(sc.key, host, g0, was);
      AgreeKept(v, g0, was);
      var tail := AddDatabases(d, sc, host, DatabasesOf(sc.databases, cluster.name), config);
      DatabasesAdded(was, v, sc, host, cluster, config, post);
      SetUpTransitive(sc.key, host, g0, was, d.nodes);
      tails := tails0[host := tail];
      TailsMove(g0, d.nodes, sc.key, host, tails0, tail);
    }

    /** Every self-hosted cluster of a scope, in declaration order. */
    method ProvisionClusters(d: Deployment, sc: Scope, gates0: map<string, nat>)
      returns (gates: map<string, nat>, tails: map<string, nat>, r: Result<()>)
      requires d.Valid() && Consistent(d.nodes) && NoMints(d.nodes, sc.key) && Known(sc)
      requires GatesOk(gates0, d.nodes) && TailsAre(map[], d.nodes, sc.key)
      modifies this, d`nodes
      ensures d.Valid() && GatesOk(gates, d.nodes) && Grew(ClusterPass, sc.key, old(d.nodes), d.nodes)
      ensures Consistent(d.nodes) && Known(sc) && TailsAre(tails, d.nodes, sc.key)
      ensures r.Ok? <==> ClustersPlaced(sc, |sc.clusters|)
      ensures r.Ok? ==> AllClustersSetUp(d.nodes, sc, |sc.clusters|)
      ensures provisioners.Keys <= old(provisioners).Keys + DatabaseKeys(sc)
      ensures r.Ok? ==> provisioners.Keys == old(provisioners).Keys + DatabaseKeys(sc)
      ensures fresh(repr - old(repr))
    {
      gates, tails := gates0, map[];
      for i := 0 to |sc.clusters|
        invariant fresh(repr - old(repr))
        invariant d.Valid() && GatesOk(gates, d.nodes) && Grew(ClusterPass, sc.key, old(d.nodes), d.nodes)
        invariant Consistent(d.nodes) && Known(sc) && TailsAre(tails, d.nodes, sc.key)
        invariant ClustersPlaced(sc, i) && AllClustersSetUp(d.nodes, sc, i)
        invariant KeysReach(provisioners.Keys, old(provisioners).Keys, sc, i)
      {
        KeysOnGrow(sc, i);
        if !ClusterPlaced(sc, sc.clusters[i]) {
          return gates, tails, Err("cluster cannot be realized");
        }
        gates, tails := PlaceNext(d, sc, i, gates, tails, old(d.nodes), old(provisioners).Keys);
      }
      r := Ok(());
    }

    /** The next cluster of the list. */
    method PlaceNext(d: Deployment, sc: Scope, i: nat, gates0: map<string, nat>, tails0: map<string, nat>,
                     ghost g0: seq<Node>, ghost keys0: set<Key>)
      returns (gates: map<string, nat>, tails: map<string, nat>)
      requires d.Valid() && Consistent(d.nodes) && NoMints(g0, sc.key) && Known(sc)
      requires GatesOk(gates0, d.nodes) && TailsAre(tails0, d.nodes, sc.key) && Grew(ClusterPass, sc.key, g0, d.nodes)
      requires i < |sc.clusters| && ClusterPlaced(sc, sc.clusters[i]) && AllClustersSetUp(d.nodes, sc, i)
      requires provisioners.Keys == keys0 + KeysOn(sc, NamesTo(sc.clusters, i))
      modifies this, d`nodes
      ensures d.Valid() && GatesOk(gates, d.nodes) && Grew(ClusterPass, sc.key, g0, d.nodes)
      ensures Consistent(d.nodes) && Known(sc) && TailsAre(tails, d.nodes, sc.key)
      ensures AllClustersSetUp(d.nodes, sc, i + 1)
      ensures provisioners.Keys == keys0 + KeysOn(sc, NamesTo(sc.clusters, i + 1))
      ensures fresh(repr - old(repr))
    {
      ClusterPassAddsNoMints(sc.key, g0, d.nodes);
      gates, tails := PlaceCluster(d, sc, sc.clusters[i], gates0, tails0);
      GrewTransitive(ClusterPass, sc.key, g0, old(d.nodes), d.nodes);
      AllClustersGrow(old(d.nodes), d.nodes, sc, i);
      assert SetUpThrough(d.nodes, sc, i);
      KeysOnStep(sc, i);
    }

    method PlaceCluster(d: Deployment, sc: Scope, cluster: Cluster, gates0: map<string, nat>, tails0: map<string, nat>)
      returns (gates: map<string, nat>, tails: map<string, nat>)
      requires d.Valid() && Consistent(d.nodes) && NoMints(d.nodes, sc.key) && Known(sc) && ClusterPlaced(sc, cluster)
      requires GatesOk(gates0, d.nodes) && TailsAre(tails0, d.nodes, sc.key)
      modifies this, d`nodes
      ensures d.Valid() && GatesOk(gates, d.nodes) && Grew(ClusterPass, sc.key, old(d.nodes), d.nodes)
      ensures Consistent(d.nodes) && Known(sc) && TailsAre(tails, d.nodes, sc.key)
      ensures ClusterSetUp(d.nodes, sc, cluster, |d.nodes|)
      ensures provisioners.Keys == old(provisioners).Keys + KeysOn(sc, {cluster.name})
      ensures fresh(repr - old(repr))
    {
      var host := sc.res.canonical[cluster.host];
      var gate;
      ghost var g0, v := d.nodes, view;
      gates, gate := d.CloudInitGate(gates0, sc.key, host);
      ghost var was := d.nodes;
      AgreeKept(v, g0, was);
      TailsKept(g0, was, sc.key, tails0);
      tails := SetUpCluster(d, sc, host, cluster, gate, tails0);
      SetUpIsClusterPass(sc.key, host, was, d.nodes);
      GrewTransitive(ClusterPass, sc.key, g0, was, d.nodes);
    }

    // ---- Roles ----

    method MintOne(d: Deployment, k: Key, service: string)
      requires d.Valid() && Consistent(d.nodes) && k in provisioners
      modifies repr, this`view, d`nodes
      ensures d.Valid() && Consistent(d.nodes) && view.Keys == old(view).Keys
      ensures forall o | o in view :: view[o].cluster == old(view)[o].cluster
      ensures MintsOf(k.0, old(d.nodes), d.nodes) && MintFrom(d.nodes, k, service, |old(d.nodes)|)
    {
      ghost var was, v := d.nodes, view;
      MintRegistered(v, was, k, service);
      MintRole(d, k, service);
    }

    method MintRole(d: Deployment, k: Key, service: string)
      requires d.Valid() && Keyed() && k in provisioners && ProvisionerOk(view[k], k, d.nodes)
      modifies repr, this`view, d`nodes
      ensures d.Valid() && Keyed() && d.nodes == old(d.nodes) + [MintNode(old(view)[k], k, service)]
      ensures view == old(view)[k := old(view)[k].(lastMint := Some(|old(d.nodes)|))]
    {
      provisioners[k].ProvisionRole(d, service);
      view := view[k := view[k].(lastMint := Some(|old(d.nodes)|))];
    }

    method ResolveGrant(d: Deployment, sc: Scope, i: nat, ghost g0: seq<Node>) returns (ok: bool)
      requires d.Valid() && Consistent(d.nodes) && Known(sc) && i < |sc.grants|
            && Granted(sc, i, g0, d.nodes, provisioners.Keys)
      modifies repr, this`view, d`nodes
      ensures d.Valid() && Consistent(d.nodes) && Known(sc)
      ensures Granted(sc, if ok then i + 1 else i, g0, d.nodes, provisioners.Keys)
      ensures !ok ==> !TargetsIn(sc, |sc.grants|, provisioners.Keys)
    {
      var gr := sc.grants[i];
      ok := GrantTarget(sc, gr) in provisioners;
      if ok {
        ghost var was, v := d.nodes, view;
        MintOne(d, GrantTarget(sc, gr), gr.service);
        GrantedStep(sc, i, g0, was, d.nodes, provisioners.Keys);
        KnownSame(v, view, sc);
      }
    }

    /** Mints a role for every database grant of a scope, service by service. */
    method ResolveGrants(d: Deployment, sc: Scope) returns (r: Result<()>)
      requires d.Valid() && Consistent(d.nodes) && Known(sc)
      modifies repr, this`view, d`nodes
      ensures d.Valid() && Consistent(d.nodes) && Known(sc) && GrantsGrew(sc, old(d.nodes), d.nodes)
      ensures r.Ok? <==> TargetsIn(sc, |sc.grants|, provisioners.Keys)
      ensures r.Ok? ==> GrantsMinted(d.nodes, sc, |sc.grants|)
    {
      for i := 0 to |sc.grants|
        invariant d.Valid() && Consistent(d.nodes) && Known(sc)
               && Granted(sc, i, old(d.nodes), d.nodes, provisioners.Keys)
      {
        var ok := ResolveGrant(d, sc, i, old(d.nodes));
        if !ok {
          return Err("database not found");
        }
      }
      r := Ok(());
    }

    // ---- Monitor roles ----

    /** The newest mint on each of the cluster's databases. */
    method ClusterRoleMints(sc: Scope, cluster: string) returns (out: set<nat>)
      requires Keyed()
      ensures TailsCovered(view, sc, cluster, out) && AreTails(view, out)
    {
      out := {};
      var dbs := DatabasesOf(sc.databases, cluster);
      for i := 0 to |dbs|
        invariant forall j | 0 <= j < i && (sc.key, dbs[j].name) in provisioners ::
          Deps(provisioners[(sc.key, dbs[j].name)].lastMint) <= out
        invariant AreTails(view, out)
      {
        var k := (sc.key, dbs[i].name);
        if k in provisioners && provisioners[k].lastMint.Some? {
          out := out + {provisioners[k].lastMint.value};
          assert view[k].lastMint == Some(provisioners[k].lastMint.value);
        }
      }
    }

    /** What the monitor mint of one cluster waits for: the host's setup and every role minted on the cluster. */
    method MonitorDeps(d: Deployment, sc: Scope, cmd: Command, tails: map<string, nat>) returns (deps: set<nat>)
      requires d.Valid() && Consistent(d.nodes) && Known(sc) && TailsOk(tails, d.nodes)
      requires cmd.scope == sc.key && cmd.kind.MonitorMint?
      ensures Admissible(d.nodes, Node(cmd, deps)) && Deps(Tail(tails, cmd.host)) <= deps
    {
      var mints := ClusterRoleMints(sc, cmd.kind.cluster);
      deps := Deps(Tail(tails, cmd.host)) + mints;
      RegisteredIsSound(d.nodes);
      MintsCovered(view, d.nodes, sc, cmd, deps);
      MintsAreMints(view, d.nodes, mints);
      AdmitMonitor(d.nodes, cmd, deps);
    }

    method MintMonitor(d: Deployment, sc: Scope, host: string, cluster: string, tails: map<string, nat>)
      returns (id: nat)
      requires d.Valid() && Consistent(d.nodes) && Known(sc) && TailsOk(tails, d.nodes)
      modifies d`nodes
      ensures d.Valid() && Consistent(d.nodes) && Grew(MonitorPass, sc.key, old(d.nodes), d.nodes)
      ensures id < |d.nodes| && d.nodes[id].cmd == Command(sc.key, host, MonitorMint(cluster), cluster)
      ensures Deps(Tail(tails, host)) <= d.nodes[id].deps
    {
      var cmd := Command(sc.key, host, MonitorMint(cluster), cluster);
      var deps := MonitorDeps(d, sc, cmd, tails);
      ghost var was := d.nodes;
      id := d.Register(cmd, deps);
      AgreeKept(view, was, d.nodes);
    }

    method MintMonitors(d: Deployment, sc: Scope, host: string, tails: map<string, nat>, install: nat)
      returns (configDeps: set<nat>)
      requires d.Valid() && Consistent(d.nodes) && Known(sc) && TailsOk(tails, d.nodes)
      requires install < |d.nodes| && d.nodes[install].cmd.kind.CollectorInstall?
      modifies d`nodes
      ensures d.Valid() && Consistent(d.nodes) && Grew(MonitorPass, sc.key, old(d.nodes), d.nodes)
      ensures NoConfigs(configDeps, d.nodes) && install in configDeps
      ensures MonitorsIn(d.nodes, configDeps, sc, host, MonitoredOn(sc, host))
    {
      configDeps := {install};
      var todo := MonitoredOn(sc, host);
      while todo != {}
        invariant todo <= MonitoredOn(sc, host) && install in configDeps
        invariant d.Valid() && Consistent(d.nodes) && Grew(MonitorPass, sc.key, old(d.nodes), d.nodes)
        invariant TailsOk(tails, d.nodes) && NoConfigs(configDeps, d.nodes)
        invariant MonitorsIn(d.nodes, configDeps, sc, host, MonitoredOn(sc, host) - todo)
      {
        var cluster := Least(todo);
        ghost var was, before := d.nodes, configDeps;
        var mint := MintMonitor(d, sc, host, cluster, tails);
        GrewTransitive(MonitorPass, sc.key, old(d.nodes), was, d.nodes);
        configDeps := configDeps + {mint};
        MonitorsInGrow(was, d.nodes, before, configDeps, sc, host, MonitoredOn(sc, host) - todo);
        assert MonitorIn(d.nodes, configDeps, sc, host, cluster);
        todo := todo - {cluster};
      }
      assert MonitoredOn(sc, host) - todo == MonitoredOn(sc, host);
    }

    /** One host's collector: installed, then configured once every monitor role it scrapes exists. */
    method ObserveHost(d: Deployment, sc: Scope, host: string, tails: map<string, nat>, gates0: map<string, nat>)
      returns (gates: map<string, nat>)
      requires d.Valid() && Consistent(d.nodes) && Known(sc) && TailsOk(tails, d.nodes) && GatesOk(gates0, d.nodes)
      modifies d`nodes
      ensures d.Valid() && Consistent(d.nodes) && TailsOk(tails, d.nodes) && GatesOk(gates, d.nodes)
      ensures Grew(MonitorPass, sc.key, old(d.nodes), d.nodes) && Observed(d.nodes, sc, host)
    {
      var install;
      gates, install := InstallCollector(d, sc.key, host, gates0);
      ghost var g1 := d.nodes;
      AgreeKept(view, old(d.nodes), g1);
      var configDeps := MintMonitors(d, sc, host, tails, install);
      ghost var g2 := d.nodes;
      GrewTransitive(MonitorPass, sc.key, old(d.nodes), g1, g2);
      ConfigureCollector(d, sc, host, configDeps);
      AgreeKept(view, g2, d.nodes);
      GrewTransitive(MonitorPass, sc.key, old(d.nodes), g2, d.nodes);
    }

    method Observe(d: Deployment, sc: Scope, tails: map<string, nat>, gates0: map<string, nat>)
      returns (gates: map<string, nat>)
      requires d.Valid() && Consistent(d.nodes) && Known(sc) && TailsOk(tails, d.nodes) && GatesOk(gates0, d.nodes)
      modifies d`nodes
      ensures d.Valid() && Consistent(d.nodes) && GatesOk(gates, d.nodes)
           && Grew(MonitorPass, sc.key, old(d.nodes), d.nodes)
      ensures AllObserved(d.nodes, sc, sc.compute)
    {
      gates := gates0;
      var todo := sc.compute;
      while todo != {}
        invariant todo <= sc.compute && AllObserved(d.nodes, sc, sc.compute - todo)
        invariant d.Valid() && Consistent(d.nodes) && TailsOk(tails, d.nodes) && GatesOk(gates, d.nodes)
        invariant Grew(MonitorPass, sc.key, old(d.nodes), d.nodes)
      {
        var host := Least(todo);
        ghost var was := d.nodes;
        gates := ObserveHost(d, sc, host, tails, gates);
        GrewTransitive(MonitorPass, sc.key, old(d.nodes), was, d.nodes);
        AllObservedGrows(was, d.nodes, sc, sc.compute - todo);
        todo := todo - {host};
      }
      assert sc.compute - todo == sc.compute;
    }
  }

  // ---- The mints a monitor waits for ----

  /** The newest mint of each of the cluster's databases is among these. */
  ghost predicate TailsCovered(v: map<Key, Provisioner>, sc: Scope, cluster: string, out: set<nat>) {
    forall db | db in DatabasesOf(sc.databases, cluster) && (sc.key, db.name) in v ::
      Deps(v[(sc.key, db.name)].lastMint) <= out
  }

  /** These are newest mints and nothing else. */
  ghost predicate AreTails(v: map<Key, Provisioner>, out: set<nat>) {
    forall m | m in out :: exists k :: k in v && v[k].lastMint == Some(m)
  }

  lemma MintCovered(v: map<Key, Provisioner>, g: seq<Node>, sc: Scope, cluster: string, deps: set<nat>, a: nat)
    returns (m: nat)
    requires TakeTurns(g) && Agree(v, g) && KnownIn(v, sc) && TailsCovered(v, sc, cluster, deps)
    requires a < |g| && g[a].cmd.kind.Mint? && g[a].cmd.scope == sc.key && g[a].cmd.kind.cluster == cluster
    ensures m in deps && (m == a || Before(g, a, m))
  {
    var name := g[a].cmd.kind.database;
    var k := (sc.key, name);
    m := NewestMint(v, g, k, a);
    assert IsDeclared(sc, name, cluster);
    var db :| db in sc.databases && db.name == name && db.cluster == cluster;
    assert db in DatabasesOf(sc.databases, cluster);
    assert m in Deps(v[k].lastMint);
  }

  /** A database's provisioner knows its newest mint, which comes after every other. */
  lemma NewestMint(v: map<Key, Provisioner>, g: seq<Node>, k: Key, a: nat) returns (m: nat)
    requires TakeTurns(g) && Agree(v, g)
    requires a < |g| && g[a].cmd.kind.Mint? && g[a].cmd.scope == k.0 && g[a].cmd.kind.database == k.1
    ensures k in v && v[k].cluster == g[a].cmd.kind.cluster && v[k].lastMint == Some(m) && (m == a || Before(g, a, m))
  {
    assert MintKnown(v, g, a) && ProvisionerOk(v[k], k, g);
    NewestOfLane(g, RoleCatalog(k.0, k.1), a);
    m := v[k].lastMint.value;
  }

  /** The newest command of a lane comes after every other one of it. */
  lemma NewestOfLane(g: seq<Node>, lane: Lane, a: nat)
    requires TakeTurns(g) && lane != Free && a < |g| && LaneOf(g[a].cmd) == lane
    ensures LastIn(g, lane).Some? && (LastIn(g, lane).value == a || Before(g, a, LastIn(g, lane).value))
  {
    LastInIs(g, lane);
  }

  /** Those newest mints reach every mint on the cluster. */
  lemma MintsCovered(v: map<Key, Provisioner>, g: seq<Node>, sc: Scope, cmd: Command, deps: set<nat>)
    requires TakeTurns(g) && Agree(v, g) && KnownIn(v, sc) && cmd.scope == sc.key && cmd.kind.MonitorMint?
    requires TailsCovered(v, sc, cmd.kind.cluster, deps)
    ensures CoversMints(g, Node(cmd, deps))
  {
    forall a | 0 <= a < |g| && OnCluster(g[a].cmd, cmd) ensures exists m :: m in deps && (m == a || Before(g, a, m)) {
      var m := MintCovered(v, g, sc, cmd.kind.cluster, deps, a);
    }
  }

  lemma MintsAreMints(v: map<Key, Provisioner>, g: seq<Node>, mints: set<nat>)
    requires Agree(v, g) && AreTails(v, mints)
    ensures forall m | m in mints :: m < |g| && g[m].cmd.kind.Mint?
  {
    forall m | m in mints ensures m < |g| && g[m].cmd.kind.Mint? {
      var k :| k in v && v[k].lastMint == Some(m);
      assert ProvisionerOk(v[k], k, g);
      LastInIs(g, RoleCatalog(k.0, k.1));
    }
  }

  lemma KnownSame(v: map<Key, Provisioner>, w: map<Key, Provisioner>, sc: Scope)
    requires KnownIn(v, sc) && v.Keys == w.Keys && forall k | k in v :: v[k].cluster == w[k].cluster
    ensures KnownIn(w, sc)
  {
  }

  lemma TailsMove(g: seq<Node>, h: seq<Node>, scope: string, host: string, tails: map<string, nat>, tail: nat)
    requires SetUpOn(scope, host, g, h) && TailsAre(tails, g, scope) && LastIn(h, HostSetup(scope, host)) == Some(tail)
    ensures TailsAre(tails[host := tail], h, scope)
  {
    forall o
      ensures LastIn(h, HostSetup(scope, o)) == if o in tails[host := tail] then Some(tails[host := tail][o]) else None
    {
      if o != host {
        forall i | |g| <= i < |h| ensures LaneOf(h[i].cmd) != HostSetup(scope, o) {
          assert SetUpKind(scope, host, h[i].cmd);
        }
        LastInKept(g, h, HostSetup(scope, o));
        assert LastIn(g, HostSetup(scope, o)) == if o in tails then Some(tails[o]) else None;
      }
    }
  }

  lemma TailsKept(g: seq<Node>, h: seq<Node>, scope: string, tails: map<string, nat>)
    requires g <= h && TailsAre(tails, g, scope) && forall i | |g| <= i < |h| :: !LaneOf(h[i].cmd).HostSetup?
    ensures TailsAre(tails, h, scope)
  {
    forall o ensures LastIn(h, HostSetup(scope, o)) == if o in tails then Some(tails[o]) else None {
      LastInKept(g, h, HostSetup(scope, o));
      assert LastIn(g, HostSetup(scope, o)) == if o in tails then Some(tails[o]) else None;
    }
  }

  lemma SetUpIsClusterPass(scope: string, host: string, g: seq<Node>, h: seq<Node>)
    requires SetUpOn(scope, host, g, h)
    ensures Grew(ClusterPass, scope, g, h)
  {
    forall i | |g| <= i < |h| ensures MayAdd(ClusterPass, scope, h[i].cmd) { assert SetUpKind(scope, host, h[i].cmd); }
  }

  lemma SetUpAddsNoMints(scope: string, host: string, g: seq<Node>, h: seq<Node>)
    requires SetUpOn(scope, host, g, h)
    ensures forall i | |g| <= i < |h| :: !h[i].cmd.kind.Mint?
    ensures NoMints(g, scope) ==> NoMints(h, scope)
  {
    forall i | |g| <= i < |h| ensures !h[i].cmd.kind.Mint? { assert SetUpKind(scope, host, h[i].cmd); }
  }

  /** Every node added is a role mint on a database of this scope. */
  ghost predicate MintsOf(scope: string, g: seq<Node>, h: seq<Node>) {
    g <= h && forall i | |g| <= i < |h| :: h[i].cmd.kind.Mint? && h[i].cmd.scope == scope
  }

  ghost predicate GrantsGrew(sc: Scope, g: seq<Node>, h: seq<Node>) {
    Grew(GrantPass, sc.key, g, h) && (SameScope(sc) ==> MintsOf(sc.key, g, h))
  }

  lemma MintsGrew(sc: Scope, gr: Grant, a: seq<Node>, b: seq<Node>, c: seq<Node>)
    requires gr in sc.grants && GrantsGrew(sc, a, b) && MintsOf(GrantTarget(sc, gr).0, b, c)
    ensures GrantsGrew(sc, a, c)
  {
  }

  lemma AdmitMonitor(g: seq<Node>, cmd: Command, deps: set<nat>)
    requires cmd.kind.MonitorMint? && CoversMints(g, Node(cmd, deps))
    requires forall d | d in deps :: d < |g| && (g[d].cmd.kind.Mint? || LaneOf(g[d].cmd).HostSetup?)
    ensures Admissible(g, Node(cmd, deps))
  {
  }

  method InstallCollector(d: Deployment, scope: string, host: string, gates0: map<string, nat>)
    returns (gates: map<string, nat>, install: nat)
    requires d.Valid() && GatesOk(gates0, d.nodes)
    modifies d`nodes
    ensures d.Valid() && GatesOk(gates, d.nodes) && Grew(MonitorPass, scope, old(d.nodes), d.nodes)
    ensures forall i | |old(d.nodes)| <= i < |d.nodes| :: !d.nodes[i].cmd.kind.Mint?
    ensures install < |d.nodes| && d.nodes[install].cmd.kind.CollectorInstall?
  {
    var gate;
    gates, gate := d.CloudInitGate(gates0, scope, host);
    AdmitPlain(d.nodes, Command(scope, host, CollectorInstall, ""), {gate});
    install := d.Register(Command(scope, host, CollectorInstall, ""), {gate});
  }

  /** The collector's configuration, after its installation and every monitor mint it scrapes through. */
  method ConfigureCollector(d: Deployment, sc: Scope, host: string, configDeps: set<nat>)
    requires d.Valid() && NoConfigs(configDeps, d.nodes)
          && MonitorsIn(d.nodes, configDeps, sc, host, MonitoredOn(sc, host))
    modifies d`nodes
    ensures d.Valid() && d.nodes == old(d.nodes) + [Node(Command(sc.key, host, CollectorConfig, ""), configDeps)]
    ensures Observed(d.nodes, sc, host)
  {
    ghost var was := d.nodes;
    AdmitCollector(was, Command(sc.key, host, CollectorConfig, ""), configDeps);
    var config := d.Register(Command(sc.key, host, CollectorConfig, ""), configDeps);
    MonitorsInGrow(was, d.nodes, configDeps, configDeps, sc, host, MonitoredOn(sc, host));
    assert CollectorAt(d.nodes, sc, host, config);
  }

  ghost predicate NoConfigs(deps: set<nat>, g: seq<Node>) {
    forall d | d in deps :: d < |g| && !g[d].cmd.kind.CollectorConfig?
  }

  lemma AdmitCollector(g: seq<Node>, cmd: Command, deps: set<nat>)
    requires cmd.kind.CollectorConfig? && NoConfigs(deps, g)
    ensures Admissible(g, Node(cmd, deps))
  {
  }

  // ---- Backups ----

  /** The backup tools of each host, installed after its clusters, then the credential and the timers. */
  method ProvisionBackups(d: Deployment, sc: Scope, settings: Settings, tails: map<string, nat>) returns (r: Result<()>)
    requires d.Valid() && TailsAre(tails, d.nodes, sc.key) && AllClustersSetUp(d.nodes, sc, |sc.clusters|)
    modifies d`nodes
    ensures d.Valid() && Grew(ClusterPass, sc.key, old(d.nodes), d.nodes)
    ensures r.Ok? <==> BackupsPlaced(sc, settings)
    ensures r.Ok? ==> AllBackedUp(d.nodes, sc, BackedUpHosts(sc))
  {
    var todo := BackedUpHosts(sc);
    if todo != {} && !settings.bucket {
      return Err("backups declare no bucket");
    }
    if todo != {} && !settings.credential {
      return Err("the backup credential is missing");
    }
    while todo != {}
      invariant d.Valid() && Grew(ClusterPass, sc.key, old(d.nodes), d.nodes)
      invariant todo <= BackedUpHosts(sc) && BackedUpHosts(sc) - todo <= sc.compute
      invariant todo != {} ==> settings.bucket && settings.credential
      invariant forall h | h in todo :: LastIn(d.nodes, HostSetup(sc.key, h)) == Tail(tails, h)
      invariant AllBackedUp(d.nodes, sc, BackedUpHosts(sc) - todo)
    {
      var host := Least(todo);
      if host !in sc.compute {
        return Err("no compute output");
      }
      BackUpNext(d, sc, host, tails, old(d.nodes), BackedUpHosts(sc), todo);
      todo := todo - {host};
    }
    assert BackedUpHosts(sc) - {} == BackedUpHosts(sc);
    r := Ok(());
  }

  method BackUpNext(d: Deployment, sc: Scope, host: string, tails: map<string, nat>, ghost g0: seq<Node>,
                    ghost all: set<string>, ghost todo: set<string>)
    requires d.Valid() && host in todo
          && (forall h | h in todo :: LastIn(d.nodes, HostSetup(sc.key, h)) == Tail(tails, h))
    requires Grew(ClusterPass, sc.key, g0, d.nodes) && AllClustersSetUp(g0, sc, |sc.clusters|)
    requires AllBackedUp(d.nodes, sc, all - todo)
    modifies d`nodes
    ensures d.Valid() && Grew(ClusterPass, sc.key, g0, d.nodes)
    ensures forall h | h in todo - {host} :: LastIn(d.nodes, HostSetup(sc.key, h)) == Tail(tails, h)
    ensures AllBackedUp(d.nodes, sc, all - (todo - {host}))
  {
    ghost var was := d.nodes;
    InstallBackupTools(d, sc, host, tails, g0);
    AllBackedUpGrows(was, d.nodes, sc, all - todo);
    OneMoreBackedUp(d.nodes, sc, all, todo, host);
  }

  lemma OneMoreBackedUp(g: seq<Node>, sc: Scope, all: set<string>, todo: set<string>, host: string)
    requires AllBackedUp(g, sc, all - todo) && BackedUp(g, sc, host)
    ensures AllBackedUp(g, sc, all - (todo - {host}))
  {
  }

  method InstallBackupTools(d: Deployment, sc: Scope, host: string, tails: map<string, nat>, ghost g0: seq<Node>)
    requires d.Valid() && LastIn(d.nodes, HostSetup(sc.key, host)) == Tail(tails, host)
    requires Grew(ClusterPass, sc.key, g0, d.nodes) && AllClustersSetUp(g0, sc, |sc.clusters|)
    modifies d`nodes
    ensures d.Valid() && Grew(ClusterPass, sc.key, g0, d.nodes) && old(d.nodes) <= d.nodes
         && BackedUp(d.nodes, sc, host)
    ensures forall h | h != host :: LastIn(d.nodes, HostSetup(sc.key, h)) == LastIn(old(d.nodes), HostSetup(sc.key, h))
  {
    ghost var was := d.nodes;
    var id := RegisterSetup(d, Command(sc.key, host, BackupInstall, ""), Tail(tails, host), {});
    ghost var installed := d.nodes;
    DeliverTimers(d, sc, host, id);
    SetUpTransitive(sc.key, host, was, installed, d.nodes);
    SetUpIsClusterPass(sc.key, host, was, d.nodes);
    GrewTransitive(ClusterPass, sc.key, g0, was, d.nodes);
    forall h | h != host ensures LastIn(d.nodes, HostSetup(sc.key, h)) == LastIn(was, HostSetup(sc.key, h)) {
      OtherLanesKept(sc.key, host, was, d.nodes, h);
    }
    BackupFollows(g0, d.nodes, sc, host, id);
    assert BackupAt(d.nodes, sc, host, id) && Timed(d.nodes, sc, host, id);
  }

  /** The credential once the tools are there, then one timer for each database. */
  method DeliverTimers(d: Deployment, sc: Scope, host: string, tools: nat)
    requires d.Valid() && tools < |d.nodes| && d.nodes[tools].cmd.kind.BackupInstall?
    modifies d`nodes
    ensures d.Valid() && SetUpOn(sc.key, host, old(d.nodes), d.nodes) && Timed(d.nodes, sc, host, tools)
  {
    var cmd := Command(sc.key, host, BackupCredential, "");
    AdmitPlain(d.nodes, cmd, {tools});
    var credential := d.Register(cmd, {tools});
    ghost var written := d.nodes;
    TimerCmdsAre(sc, host, sc.clusters);
    InstallTimers(d, TimerCmds(sc, host, sc.clusters), credential, sc.key, host);
    SetUpTransitive(sc.key, host, old(d.nodes), written, d.nodes);
    assert TimersAt(d.nodes, sc, host, tools, credential);
  }

  method InstallTimers(d: Deployment, cmds: seq<Command>, credential: nat, ghost scope: string, ghost host: string)
    requires d.Valid() && credential < |d.nodes| && d.nodes[credential].cmd.kind.BackupCredential?
    requires forall cmd | cmd in cmds :: cmd.kind.BackupTimer? && cmd.scope == scope
    modifies d`nodes
    ensures d.Valid() && SetUpOn(scope, host, old(d.nodes), d.nodes) && AllFollow(d.nodes, cmds, credential)
  {
    for i := 0 to |cmds|
      invariant d.Valid() && SetUpOn(scope, host, old(d.nodes), d.nodes) && AllFollow(d.nodes, cmds[..i], credential)
    {
      ghost var was := d.nodes;
      AdmitPlain(d.nodes, cmds[i], {credential});
      var id := d.Register(cmds[i], {credential});
      AllFollowGrows(was, d.nodes, cmds[..i], credential);
      assert d.nodes[id].cmd == cmds[i] && Follows(d.nodes, cmds[i], credential);
      assert cmds[..i + 1] == cmds[..i] + [cmds[i]];
    }
    assert cmds[..|cmds|] == cmds;
  }

  lemma OtherLanesKept(scope: string, host: string, g: seq<Node>, h: seq<Node>, other: string)
    requires SetUpOn(scope, host, g, h) && other != host
    ensures LastIn(h, HostSetup(scope, other)) == LastIn(g, HostSetup(scope, other))
  {
    forall i | |g| <= i < |h| ensures LaneOf(h[i].cmd) != HostSetup(scope, other) {
      assert SetUpKind(scope, host, h[i].cmd);
    }
    LastInKept(g, h, HostSetup(scope, other));
  }

  lemma BackupFollows(g: seq<Node>, h: seq<Node>, sc: Scope, host: string, id: nat)
    requires g <= h && AllClustersSetUp(g, sc, |sc.clusters|)
    requires |g| <= id < |h| && h[id].cmd == Command(sc.key, host, BackupInstall, "")
    ensures BackupAt(h, sc, host, id)
  {
    forall c | c in sc.clusters && c.host in sc.res.canonical && sc.res.canonical[c.host] == host
      ensures ClusterSetUp(h, sc, c, id)
    {
      assert sc.clusters[..|sc.clusters|] == sc.clusters;
      AllClustersAre(g, sc, |sc.clusters|, c);
      ClusterSetUpGrows(g, h, sc, c, |g|, id);
    }
  }

  // ---- Chains and keys, step by step ----

  lemma ExtendChain(g: seq<Node>, h: seq<Node>, ids: seq<nat>, scope: string, host: string, cluster: string,
                    dbs: seq<Database>, i: nat, last: nat, id: nat) returns (more: seq<nat>)
    requires g <= h && i < |dbs| && Chain(g, ids, ClusterCmds(scope, host, cluster, dbs, i)) && ids[|ids| - 1] == last
    requires id < |h| && h[id] == Node(Command(scope, host, CreateDatabase(dbs[i].name), cluster), {last})
    ensures Chain(h, more, ClusterCmds(scope, host, cluster, dbs, i + 1)) && more[|more| - 1] == id
  {
    var cmd := Command(scope, host, CreateDatabase(dbs[i].name), cluster);
    ChainGrows(g, h, ids, ClusterCmds(scope, host, cluster, dbs, i));
    ChainSnoc(h, ids, ClusterCmds(scope, host, cluster, dbs, i), id, cmd);
    more := ids + [id];
    assert ClusterCmds(scope, host, cluster, dbs, i + 1) == ClusterCmds(scope, host, cluster, dbs, i) + [cmd];
  }

  // ---- A cluster's databases ----

  /** The host's newest setup command after some databases. */
  function TailAfter(start: nat, n: nat, config: nat): nat { if n == 0 then config else start + n - 1 }

  /** The graph with some databases registered, each after the one before it. */
  function WithDatabases(g: seq<Node>, scope: string, host: string, dbs: seq<Database>, n: nat, config: nat): seq<Node>
    requires n <= |dbs|
    decreases n, 0
  {
    if n == 0 then g else WithDatabase(g, scope, host, dbs, n - 1, config)
  }

  function WithDatabase(g: seq<Node>, scope: string, host: string, dbs: seq<Database>, i: nat, config: nat): seq<Node>
    requires i < |dbs|
    decreases i, 1
  {
    WithDatabases(g, scope, host, dbs, i, config)
    + [Node(Command(scope, host, CreateDatabase(dbs[i].name), dbs[i].cluster), {TailAfter(|g|, i, config)})]
  }

  /** And what the provisioners know then. */
  function BoundTo(v: map<Key, Provisioner>, start: nat, scope: string, dbs: seq<Database>, n: nat)
    : map<Key, Provisioner>
    requires n <= |dbs|
    decreases n, 0
  {
    if n == 0 then v else BoundAt(v, start, scope, dbs, n - 1)
  }

  function BoundAt(v: map<Key, Provisioner>, start: nat, scope: string, dbs: seq<Database>, i: nat)
    : map<Key, Provisioner>
    requires i < |dbs|
    decreases i, 1
  {
    BoundTo(v, start, scope, dbs, i)[(scope, dbs[i].name) := Provisioner(dbs[i].cluster, start + i, None)]
  }

  ghost predicate AddedTo(g: seq<Node>, v: map<Key, Provisioner>, scope: string, host: string, dbs: seq<Database>,
                          n: nat, config: nat, h: seq<Node>, w: map<Key, Provisioner>, tail: nat)
  {
    && n <= |dbs| && h == WithDatabases(g, scope, host, dbs, n, config) && w == BoundTo(v, |g|, scope, dbs, n)
    && tail == TailAfter(|g|, n, config)
  }

  lemma {:induction false} DatabasesGrow(g: seq<Node>, scope: string, host: string, dbs: seq<Database>, n: nat,
                                         config: nat)
    requires n <= |dbs| && LastIn(g, HostSetup(scope, host)) == Some(config)
    ensures var h := WithDatabases(g, scope, host, dbs, n, config);
      && |h| == |g| + n && SetUpOn(scope, host, g, h)
      && LastIn(h, HostSetup(scope, host)) == Some(TailAfter(|g|, n, config))
    decreases n
  {
    if n > 0 {
      DatabasesGrow(g, scope, host, dbs, n - 1, config);
      var h := WithDatabases(g, scope, host, dbs, n - 1, config);
      LastInSnoc(h, WithDatabase(g, scope, host, dbs, n - 1, config)[|h|], HostSetup(scope, host));
    }
  }

  lemma AddedTail(g: seq<Node>, v: map<Key, Provisioner>, scope: string, host: string, dbs: seq<Database>, n: nat,
                  config: nat, h: seq<Node>, w: map<Key, Provisioner>, tail: nat)
    requires AddedTo(g, v, scope, host, dbs, n, config, h, w, tail) && LastIn(g, HostSetup(scope, host)) == Some(config)
    ensures LastIn(h, HostSetup(scope, host)) == Some(tail) && |h| == |g| + n
  {
    DatabasesGrow(g, scope, host, dbs, n, config);
  }

  lemma AddedStep(g: seq<Node>, v: map<Key, Provisioner>, scope: string, host: string, dbs: seq<Database>, n: nat,
                  config: nat, h: seq<Node>, w: map<Key, Provisioner>, last: nat)
    requires n < |dbs| && AddedTo(g, v, scope, host, dbs, n, config, h, w, last) && |h| == |g| + n
    ensures AddedTo(g, v, scope, host, dbs, n + 1, config,
                    h + [Node(Command(scope, host, CreateDatabase(dbs[n].name), dbs[n].cluster), {last})],
                    w[(scope, dbs[n].name) := Provisioner(dbs[n].cluster, |h|, None)], |h|)
  {
    assert WithDatabases(g, scope, host, dbs, n + 1, config) == WithDatabase(g, scope, host, dbs, n, config);
    assert BoundTo(v, |g|, scope, dbs, n + 1) == BoundAt(v, |g|, scope, dbs, n);
  }

  lemma {:induction false} DatabasesChain(g: seq<Node>, scope: string, host: string, cluster: string,
                                          dbs: seq<Database>, n: nat, config: nat, post: seq<nat>)
    returns (ids: seq<nat>)
    requires n <= |dbs| && (forall db | db in dbs :: db.cluster == cluster)
          && LastIn(g, HostSetup(scope, host)) == Some(config)
    requires Chain(g, post, PostmasterCmds(scope, host, cluster)) && post[3] == config
    ensures Chain(WithDatabases(g, scope, host, dbs, n, config), ids, ClusterCmds(scope, host, cluster, dbs, n))
    ensures ids[|ids| - 1] == TailAfter(|g|, n, config)
    decreases n
  {
    if n == 0 {
      ids := post;
      assert ClusterCmds(scope, host, cluster, dbs, 0) == PostmasterCmds(scope, host, cluster);
    } else {
      ids := DatabasesChain(g, scope, host, cluster, dbs, n - 1, config, post);
      DatabasesGrow(g, scope, host, dbs, n - 1, config);
      assert dbs[n - 1] in dbs
        && WithDatabases(g, scope, host, dbs, n, config) == WithDatabase(g, scope, host, dbs, n - 1, config);
      var before := WithDatabases(g, scope, host, dbs, n - 1, config);
      var after := WithDatabases(g, scope, host, dbs, n, config);
      ids := ExtendChain(before, after, ids,
                         scope, host, cluster, dbs, n - 1, TailAfter(|g|, n - 1, config), |g| + n - 1);
    }
  }

  lemma {:induction false} DatabasesAgree(g: seq<Node>, v: map<Key, Provisioner>, sc: Scope, host: string,
                                          dbs: seq<Database>, n: nat, config: nat)
    requires n <= |dbs| && (forall db | db in dbs :: db in sc.databases)
          && LastIn(g, HostSetup(sc.key, host)) == Some(config)
    requires Agree(v, g) && KnownIn(v, sc) && NoMints(g, sc.key)
    ensures Agree(BoundTo(v, |g|, sc.key, dbs, n), WithDatabases(g, sc.key, host, dbs, n, config))
    ensures KnownIn(BoundTo(v, |g|, sc.key, dbs, n), sc)
    decreases n
  {
    if n > 0 {
      var h, w := WithDatabases(g, sc.key, host, dbs, n - 1, config), BoundTo(v, |g|, sc.key, dbs, n - 1);
      var after, db := WithDatabases(g, sc.key, host, dbs, n, config), dbs[n - 1];
      DatabasesAgree(g, v, sc, host, dbs, n - 1, config);
      DatabasesGrow(g, sc.key, host, dbs, n - 1, config);
      DatabasesGrow(g, sc.key, host, dbs, n, config);
      SetUpAddsNoMints(sc.key, host, g, after);
      assert after == WithDatabase(g, sc.key, host, dbs, n - 1, config);
      AgreeKept(w, h, after);
      assert db in dbs && BoundTo(v, |g|, sc.key, dbs, n) == BoundAt(v, |g|, sc.key, dbs, n - 1);
      AgreeBind(w, after, (sc.key, db.name), Provisioner(db.cluster, |g| + n - 1, None));
      KnownBind(w, sc, db, Provisioner(db.cluster, |g| + n - 1, None));
    }
  }

  lemma {:induction false} BoundKeys(v: map<Key, Provisioner>, start: nat, sc: Scope, dbs: seq<Database>, n: nat)
    requires n <= |dbs|
    ensures BoundTo(v, start, sc.key, dbs, n).Keys == KeysWith(v.Keys, sc, dbs, n)
    decreases n
  {
    if n > 0 {
      BoundKeys(v, start, sc, dbs, n - 1);
      assert BoundTo(v, start, sc.key, dbs, n) == BoundAt(v, start, sc.key, dbs, n - 1);
    }
  }

  /** A cluster whose postmaster stands, with its databases added, is set up. */
  lemma DatabasesAdded(g: seq<Node>, v: map<Key, Provisioner>, sc: Scope, host: string, c: Cluster, config: nat,
                       post: seq<nat>)
    requires c.host in sc.res.canonical && sc.res.canonical[c.host] == host
          && LastIn(g, HostSetup(sc.key, host)) == Some(config)
    requires Chain(g, post, PostmasterCmds(sc.key, host, c.name)) && post[3] == config
    requires Agree(v, g) && KnownIn(v, sc) && NoMints(g, sc.key)
    ensures var dbs := DatabasesOf(sc.databases, c.name);
      var h, w := WithDatabases(g, sc.key, host, dbs, |dbs|, config), BoundTo(v, |g|, sc.key, dbs, |dbs|);
      && SetUpOn(sc.key, host, g, h) && LastIn(h, HostSetup(sc.key, host)) == Some(TailAfter(|g|, |dbs|, config))
      && ClusterSetUp(h, sc, c, |h|) && Agree(w, h) && KnownIn(w, sc) && w.Keys == v.Keys + KeysOn(sc, {c.name})
  {
    var dbs := DatabasesOf(sc.databases, c.name);
    var ids := DatabasesChain(g, sc.key, host, c.name, dbs, |dbs|, config, post);
    DatabasesGrow(g, sc.key, host, dbs, |dbs|, config);
    DatabasesAgree(g, v, sc, host, dbs, |dbs|, config);
    BoundKeys(v, |g|, sc, dbs, |dbs|);
    KeysWithAll(v.Keys, sc, c.name, dbs);
  }

  /** The keys known once some of these databases are added. */
  function KeysWith(keys: set<Key>, sc: Scope, dbs: seq<Database>, n: nat): set<Key>
    requires n <= |dbs|
  {
    if n == 0 then keys else KeysWith(keys, sc, dbs, n - 1) + {(sc.key, dbs[n - 1].name)}
  }

  lemma {:induction false} KeysWithAre(keys: set<Key>, sc: Scope, dbs: seq<Database>, n: nat)
    requires n <= |dbs|
    ensures KeysWith(keys, sc, dbs, n) == keys + set i | 0 <= i < n :: (sc.key, dbs[i].name)
    decreases n
  {
    if n > 0 { KeysWithAre(keys, sc, dbs, n - 1); }
  }

  lemma KeysWithAll(keys: set<Key>, sc: Scope, cluster: string, dbs: seq<Database>)
    requires dbs == DatabasesOf(sc.databases, cluster)
    ensures KeysWith(keys, sc, dbs, |dbs|) == keys + KeysOn(sc, {cluster})
  {
    KeysWithAre(keys, sc, dbs, |dbs|);
    var added := set i | 0 <= i < |dbs| :: (sc.key, dbs[i].name);
    forall k | k in KeysOn(sc, {cluster}) ensures k in added {
      var db :| db in sc.databases && db.cluster in {cluster} && k == (sc.key, db.name);
      assert db in dbs;
      var i :| 0 <= i < |dbs| && dbs[i] == db;
      assert k == (sc.key, dbs[i].name);
    }
    forall k | k in added ensures k in KeysOn(sc, {cluster}) {
      var i :| 0 <= i < |dbs| && k == (sc.key, dbs[i].name);
      assert dbs[i] in dbs;
    }
  }

  /** The known databases are those known before and those of the first clusters. */
  ghost predicate KeysReach(keys: set<Key>, keys0: set<Key>, sc: Scope, i: nat)
  {
    i <= |sc.clusters| && keys == keys0 + KeysOn(sc, NamesTo(sc.clusters, i))
  }

  lemma KeysOnStep(sc: Scope, i: nat)
    requires i < |sc.clusters|
    ensures KeysOn(sc, NamesTo(sc.clusters, i + 1)) ==
      KeysOn(sc, NamesTo(sc.clusters, i)) + KeysOn(sc, {sc.clusters[i].name})
  {
    assert NamesTo(sc.clusters, i + 1) == NamesTo(sc.clusters, i) + {sc.clusters[i].name};
  }

  lemma KeysOnGrow(sc: Scope, i: nat)
    requires i <= |sc.clusters|
    ensures KeysOn(sc, NamesTo(sc.clusters, i)) <= DatabaseKeys(sc)
  {
    assert NamesTo(sc.clusters, i) <= NamesTo(sc.clusters, |sc.clusters|);
  }

  lemma ClusterPassAddsNoMints(scope: string, g: seq<Node>, h: seq<Node>)
    requires Grew(ClusterPass, scope, g, h) && NoMints(g, scope)
    ensures NoMints(h, scope)
  {
    forall i | |g| <= i < |h| ensures !h[i].cmd.kind.Mint? { assert MayAdd(ClusterPass, scope, h[i].cmd); }
  }

  /** The first grants' databases all have a provisioner. */
  predicate TargetsIn(sc: Scope, n: nat, keys: set<(string, string)>)
    requires n <= |sc.grants|
  {
    forall i | 0 <= i < n :: GrantTarget(sc, sc.grants[i]) in keys
  }

  /** The first grants are minted, on databases that exist. */
  ghost predicate Granted(sc: Scope, n: nat, g0: seq<Node>, g: seq<Node>, keys: set<Key>) {
    n <= |sc.grants| && GrantsGrew(sc, g0, g) && TargetsIn(sc, n, keys) && GrantsMinted(g, sc, n)
  }

  lemma GrantedStep(sc: Scope, i: nat, g0: seq<Node>, g: seq<Node>, h: seq<Node>, keys: set<Key>)
    requires Granted(sc, i, g0, g, keys) && i < |sc.grants| && GrantTarget(sc, sc.grants[i]) in keys
    requires MintsOf(GrantTarget(sc, sc.grants[i]).0, g, h)
          && MintFrom(h, GrantTarget(sc, sc.grants[i]), sc.grants[i].service, |g|)
    ensures Granted(sc, i + 1, g0, h, keys)
  {
    MintsGrew(sc, sc.grants[i], g0, g, h);
    GrantsMintedGrow(g, h, sc, i);
    MintIsFor(h, sc, sc.grants[i], |g|);
  }
}
