/** What a deploy registers, scope by scope (program/program.go Run, program/mesh.go, program/dbcluster.go). */
module DeployOrder {
  import opened Common
  import opened Mesh
  import opened Dag

  datatype Cluster = Cluster(name: string, host: string, selfHosted: bool, attached: bool)

  datatype Database = Database(name: string, cluster: string, metrics: bool, backup: bool)

  /** One service's grant on a database, in its own scope or through the `global/` redirect. */
  datatype Grant = Grant(service: string, database: string, isGlobal: bool)

  /** One scope's inputs. `compute` holds the hosts with outputs, `live` those whose mesh provider returns a reload,
      `secretBearing` the services with material to deliver. */
  datatype Scope = Scope(
    key: string, slug: string, res: Resources, compute: set<string>, live: set<string>, secretBearing: set<string>,
    clusters: seq<Cluster>, databases: seq<Database>, grants: seq<Grant>)

  /** What a deploy reads from its configuration and the reserved secrets: the environment's name, and whether a bucket
      for backups and the credential for it are there. */
  datatype Settings = Settings(env: string, bucket: bool, credential: bool)

  // ---- Global scope first ----

  ghost predicate GlobalFirst(keys: seq<string>) {
    forall i, j | 0 <= i < j < |keys| && keys[j] == GLOBAL :: keys[i] == GLOBAL
  }

  method RequireGlobalScopeFirst(keys: seq<string>) returns (ok: bool)
    ensures ok <==> GlobalFirst(keys)
  {
    var seenRegional := false;
    for i := 0 to |keys|
      invariant seenRegional <==> exists k :: 0 <= k < i && keys[k] != GLOBAL
      invariant GlobalFirst(keys[..i])
    {
      if keys[i] == GLOBAL {
        if seenRegional {
          return false;
        }
      } else {
        seenRegional := true;
      }
    }
    assert keys[..|keys|] == keys;
    return true;
  }

  // ---- What holds of every graph a deploy registers ----

  predicate Restarts(cmd: Command) { cmd.kind.Provision? || cmd.kind.Secrets? }

  predicate NeedsUnit(cmd: Command) { cmd.kind.Secrets? || cmd.kind.Descriptor? }

  /** The scope whose callees a command of scope `s` may call: its own or the global one. */
  predicate Serves(calleeScope: string, s: string) { calleeScope == s || calleeScope == GLOBAL }

  ghost predicate MeshGated(g: seq<Node>) {
    forall a, b | 0 <= a < |g| && 0 <= b < |g| && g[a].cmd.kind.Reload? && Restarts(g[b].cmd)
                  && Serves(g[a].cmd.scope, g[b].cmd.scope) :: a in g[b].deps
  }

  predicate IsUnitOf(unit: Command, cmd: Command) {
    unit.kind.Provision? && unit.scope == cmd.scope && unit.name == cmd.name
  }

  ghost predicate UnitsFirst(g: seq<Node>) {
    forall b | 0 <= b < |g| && NeedsUnit(g[b].cmd) ::
      exists a :: 0 <= a < b && a in g[b].deps && IsUnitOf(g[a].cmd, g[b].cmd)
  }

  predicate OnCluster(mint: Command, monitor: Command) {
    mint.kind.Mint? && monitor.kind == MonitorMint(mint.kind.cluster) && mint.scope == monitor.scope
  }

  ghost predicate MonitorsFollow(g: seq<Node>) {
    forall a, b | 0 <= a < b < |g| && OnCluster(g[a].cmd, g[b].cmd) :: Before(g, a, b)
  }

  /** Only a collector's configuration waits for a monitor mint, and nothing waits for that. */
  predicate MayDependOn(cmd: Command, dep: Command) {
    !dep.kind.CollectorConfig? && (dep.kind.MonitorMint? ==> cmd.kind.CollectorConfig?)
  }

  ghost predicate MonitorsAreLast(g: seq<Node>) {
    forall i, d | 0 <= i < |g| && d in g[i].deps && d < |g| :: MayDependOn(g[i].cmd, g[d].cmd)
  }

  ghost predicate Sound(g: seq<Node>) {
    WellFormed(g) && TakeTurns(g) && MeshGated(g) && UnitsFirst(g) && MonitorsFollow(g) && MonitorsAreLast(g)
  }

  ghost predicate CoversMints(g: seq<Node>, n: Node) {
    forall a | 0 <= a < |g| && OnCluster(g[a].cmd, n.cmd) :: exists m :: m in n.deps && (m == a || Before(g, a, m))
  }

  /** What a new registration has to respect. */
  ghost predicate Admissible(g: seq<Node>, n: Node) {
    && (forall d | d in n.deps :: d < |g| && MayDependOn(n.cmd, g[d].cmd))
    && (LaneOf(n.cmd) == Free || Deps(LastIn(g, LaneOf(n.cmd))) <= n.deps)
    && (Restarts(n.cmd) ==>
          forall a | 0 <= a < |g| && g[a].cmd.kind.Reload? && Serves(g[a].cmd.scope, n.cmd.scope) :: a in n.deps)
    && (n.cmd.kind.Reload? ==> forall b | 0 <= b < |g| && Restarts(g[b].cmd) :: !Serves(n.cmd.scope, g[b].cmd.scope))
    && (NeedsUnit(n.cmd) ==> exists a :: 0 <= a < |g| && a in n.deps && IsUnitOf(g[a].cmd, n.cmd))
    && CoversMints(g, n)
  }

  lemma MonitorsFollowKept(g: seq<Node>, n: Node)
    requires WellFormed(g) && MonitorsFollow(g) && (forall d | d in n.deps :: d < |g|) && CoversMints(g, n)
    ensures MonitorsFollow(g + [n])
  {
    var h := g + [n];
    forall a, b | 0 <= a < b < |h| && OnCluster(h[a].cmd, h[b].cmd) ensures Before(h, a, b) {
      if b < |g| {
        BeforeStable(g, h, a, b);
      } else {
        var m :| m in n.deps && (m == a || Before(g, a, m));
        assert Before(h, m, b);
        if m != a {
          BeforeStable(g, h, a, m);
          BeforeTransitive(h, a, m, b);
        }
      }
    }
  }

  lemma SoundKept(g: seq<Node>, n: Node)
    requires Sound(g) && Admissible(g, n)
    ensures Sound(g + [n])
  {
    var h := g + [n];
    TurnsKept(g, n);
    MonitorsFollowKept(g, n);
    assert UnitsFirst(h) by {
      forall b | 0 <= b < |h| && NeedsUnit(h[b].cmd)
        ensures exists a :: 0 <= a < b && a in h[b].deps && IsUnitOf(h[a].cmd, h[b].cmd)
      {
        if b < |g| {
          var a :| 0 <= a < b && a in g[b].deps && IsUnitOf(g[a].cmd, g[b].cmd);
          assert IsUnitOf(h[a].cmd, h[b].cmd);
        } else {
          var a :| 0 <= a < |g| && a in n.deps && IsUnitOf(g[a].cmd, n.cmd);
          assert IsUnitOf(h[a].cmd, h[b].cmd);
        }
      }
    }
  }

  ghost predicate AdmissibleAt(g: seq<Node>, i: nat)
    requires i < |g|
  {
    Admissible(g[..i], g[i])
  }

  /** A graph built by admissible registrations only. */
  ghost predicate Registered(g: seq<Node>) {
    forall i | 0 <= i < |g| :: AdmissibleAt(g, i)
  }

  lemma RegisteredSnoc(g: seq<Node>, n: Node)
    requires Registered(g) && Admissible(g, n)
    ensures Registered(g + [n])
  {
    var h := g + [n];
    forall i | 0 <= i < |h| ensures AdmissibleAt(h, i) {
      if i < |g| {
        assert AdmissibleAt(g, i) && h[..i] == g[..i];
      } else {
        assert h[..i] == g;
      }
    }
  }

  lemma RegisteredFront(g: seq<Node>)
    requires Registered(g) && g != []
    ensures Registered(g[..|g| - 1]) && Admissible(g[..|g| - 1], g[|g| - 1])
    ensures g[..|g| - 1] + [g[|g| - 1]] == g
  {
    var front := g[..|g| - 1];
    forall i | 0 <= i < |front| ensures AdmissibleAt(front, i) { assert AdmissibleAt(g, i) && front[..i] == g[..i]; }
    assert AdmissibleAt(g, |g| - 1);
  }

  lemma {:induction false} RegisteredIsSound(g: seq<Node>)
    requires Registered(g)
    ensures Sound(g)
    decreases |g|
  {
    if g != [] {
      RegisteredFront(g);
      RegisteredIsSound(g[..|g| - 1]);
      SoundKept(g[..|g| - 1], g[|g| - 1]);
    }
  }
}
