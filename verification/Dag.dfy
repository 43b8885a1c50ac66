/** The resource graph a deploy registers, and every execution the engine may choose for it. */
module Dag {
  import opened Common

  datatype Kind =
    | Gate | Reload | MeshDescriptor | Volume
    | Install | Mount | Init | Config | CreateDatabase(database: string)
    | BackupInstall | BackupCredential | BackupTimer(database: string)
    | Mint(cluster: string, database: string) | MonitorMint(cluster: string) | CollectorInstall | CollectorConfig
    | Provision | HostKey | Secrets | Descriptor

  /** A registered command; `name` is the service, cluster or role it works on. */
  datatype Command = Command(scope: string, host: string, kind: Kind, name: string)

  datatype Node = Node(cmd: Command, deps: set<nat>)

  /** Dependencies are earlier registrations, so the graph is acyclic. */
  ghost predicate WellFormed(g: seq<Node>) {
    forall i, d | 0 <= i < |g| && d in g[i].deps :: d < i
  }

  /** `a` is a dependency of `b`, at any distance. */
  ghost predicate Before(g: seq<Node>, a: nat, b: nat)
    decreases b
  {
    b < |g| && exists d :: d in g[b].deps && d < b && (d == a || Before(g, a, d))
  }

  lemma {:induction false} BeforeIsEarlier(g: seq<Node>, a: nat, b: nat)
    requires Before(g, a, b)
    ensures a < b < |g|
    decreases b
  {
    var d :| d in g[b].deps && d < b && (d == a || Before(g, a, d));
    if d != a { BeforeIsEarlier(g, a, d); }
  }

  lemma {:induction false} BeforeTransitive(g: seq<Node>, a: nat, b: nat, c: nat)
    requires Before(g, a, b) && Before(g, b, c)
    ensures Before(g, a, c)
    decreases c
  {
    var d :| d in g[c].deps && d < c && (d == b || Before(g, b, d));
    if d != b { BeforeTransitive(g, a, b, d); }
  }

  /** Later registrations neither add nor remove an ordering between two existing commands. */
  lemma {:induction false} BeforeStable(g: seq<Node>, h: seq<Node>, a: nat, b: nat)
    requires g <= h && b < |g|
    ensures Before(g, a, b) <==> Before(h, a, b)
    decreases b
  {
    assert g[b] == h[b];
    forall d: nat | d < b ensures Before(g, a, d) <==> Before(h, a, d) { BeforeStable(g, h, a, d); }
  }

  // ---- Executions ----

  datatype Event = Start(id: nat) | Finish(id: nat)

  /** The engine starts a command once all its dependencies have finished, and only then. */
  ghost predicate CanStep(g: seq<Node>, done: seq<Event>, e: Event) {
    match e
    case Start(i) => i < |g| && Start(i) !in done && forall d | d in g[i].deps :: Finish(d) in done
    case Finish(i) => Start(i) in done && Finish(i) !in done
  }

  /** Any interleaving, complete or cut short at any point. */
  ghost predicate Legal(g: seq<Node>, s: seq<Event>) {
    forall p | 0 <= p < |s| :: CanStep(g, s[..p], s[p])
  }

  lemma LegalSnoc(g: seq<Node>, s: seq<Event>, e: Event)
    requires Legal(g, s) && CanStep(g, s, e)
    ensures Legal(g, s + [e])
  {
    forall p | 0 <= p < |s + [e]| ensures CanStep(g, (s + [e])[..p], (s + [e])[p]) {
      if p < |s| { assert (s + [e])[..p] == s[..p]; } else { assert (s + [e])[..p] == s; }
    }
  }

  ghost predicate FinishesBeforeStart(s: seq<Event>, a: nat, b: nat) {
    forall p | 0 <= p < |s| && s[p] == Start(b) :: Finish(a) in s[..p]
  }

  /** A finished command started earlier. */
  lemma StartedBefore(g: seq<Node>, s: seq<Event>, p: nat, d: nat) returns (r: nat)
    requires Legal(g, s) && p <= |s| && Finish(d) in s[..p]
    ensures r < p && s[r] == Start(d)
  {
    var q :| 0 <= q < |s[..p]| && s[..p][q] == Finish(d);
    assert CanStep(g, s[..q], s[q]);
    r :| 0 <= r < |s[..q]| && s[..q][r] == Start(d);
  }

  lemma {:induction false} OrderIsRespected(g: seq<Node>, s: seq<Event>, a: nat, b: nat)
    requires Legal(g, s) && Before(g, a, b)
    ensures FinishesBeforeStart(s, a, b)
    decreases b
  {
    var d :| d in g[b].deps && d < b && (d == a || Before(g, a, d));
    if d != a { OrderIsRespected(g, s, a, d); }
    forall p | 0 <= p < |s| && s[p] == Start(b) ensures Finish(a) in s[..p] {
      assert CanStep(g, s[..p], s[p]);
      if d != a {
        var r := StartedBefore(g, s, p, d);
        assert Finish(a) in s[..r];
        assert s[..r] <= s[..p];
      }
    }
  }

  /** The members of a set below `n`, one after the other in registration order. */
  ghost function InOrder(picked: set<nat>, n: nat): seq<Event> {
    if n == 0 then [] else InOrder(picked, n - 1) + (if n - 1 in picked then [Start(n - 1), Finish(n - 1)] else [])
  }

  lemma {:induction false} InOrderHolds(picked: set<nat>, n: nat)
    ensures forall i: nat :: Start(i) in InOrder(picked, n) <==> i < n && i in picked
    ensures forall i: nat :: Finish(i) in InOrder(picked, n) <==> i < n && i in picked
  {
    if n > 0 { InOrderHolds(picked, n - 1); }
  }

  ghost predicate DownClosed(g: seq<Node>, picked: set<nat>) {
    forall i, d | i in picked && i < |g| && d in g[i].deps :: d in picked
  }

  lemma {:induction false} InOrderLegal(g: seq<Node>, picked: set<nat>, n: nat)
    requires WellFormed(g) && DownClosed(g, picked) && n <= |g|
    ensures Legal(g, InOrder(picked, n))
  {
    if n > 0 {
      var s := InOrder(picked, n - 1);
      InOrderLegal(g, picked, n - 1);
      InOrderHolds(picked, n - 1);
      if n - 1 in picked {
        RunOne(g, s, n - 1);
      } else {
        assert s + [] == s;
      }
    }
  }

  lemma RunOne(g: seq<Node>, s: seq<Event>, i: nat)
    requires Legal(g, s) && CanStep(g, s, Start(i)) && Finish(i) !in s
    ensures Legal(g, s + [Start(i), Finish(i)])
  {
    LegalSnoc(g, s, Start(i));
    LegalSnoc(g, s + [Start(i)], Finish(i));
    assert s + [Start(i)] + [Finish(i)] == s + [Start(i), Finish(i)];
  }

  ghost function Ancestors(g: seq<Node>, b: nat): set<nat> {
    set i: nat | i < |g| && Before(g, i, b)
  }

  lemma AncestorsDownClosed(g: seq<Node>, b: nat)
    requires WellFormed(g) && b < |g|
    ensures DownClosed(g, Ancestors(g, b))
  {
    forall i, d | i in Ancestors(g, b) && i < |g| && d in g[i].deps ensures d in Ancestors(g, b) {
      assert Before(g, d, i);
      BeforeTransitive(g, d, i, b);
    }
  }

  /** Dependency paths are exactly what every execution respects: without one, some execution starts `b` too early. */
  lemma OrderedIff(g: seq<Node>, a: nat, b: nat)
    requires WellFormed(g) && a < |g| && b < |g|
    ensures Before(g, a, b) <==> forall s | Legal(g, s) :: FinishesBeforeStart(s, a, b)
  {
    if Before(g, a, b) {
      forall s | Legal(g, s) ensures FinishesBeforeStart(s, a, b) { OrderIsRespected(g, s, a, b); }
    } else {
      var picked := Ancestors(g, b);
      var s := InOrder(picked, |g|);
      AncestorsDownClosed(g, b);
      InOrderLegal(g, picked, |g|);
      InOrderHolds(picked, |g|);
      if b in picked { BeforeIsEarlier(g, b, b); }
      forall d | d in g[b].deps ensures d in picked { assert Before(g, d, b); }
      LegalSnoc(g, s, Start(b));
      var t := s + [Start(b)];
      assert t[|s|] == Start(b) && t[..|s|] == s;
      assert !FinishesBeforeStart(t, a, b);
    }
  }

  ghost predicate Running(s: seq<Event>, i: nat) { Start(i) in s && Finish(i) !in s }

  /** Some execution has both commands in flight at once. */
  ghost predicate CanOverlap(g: seq<Node>, a: nat, b: nat) {
    exists s :: Legal(g, s) && Running(s, a) && Running(s, b)
  }

  lemma CanStart(g: seq<Node>, s: seq<Event>, picked: set<nat>, b: nat)
    requires b < |g| && Ancestors(g, b) <= picked && Start(b) !in s
    requires forall i: nat :: i in picked && i < |g| ==> Finish(i) in s
    requires WellFormed(g)
    ensures CanStep(g, s, Start(b))
  {
    forall d | d in g[b].deps ensures Finish(d) in s {
      assert Before(g, d, b);
      assert d in Ancestors(g, b);
    }
  }

  lemma NotOwnAncestor(g: seq<Node>, b: nat)
    ensures b !in Ancestors(g, b)
  {
    if Before(g, b, b) { BeforeIsEarlier(g, b, b); }
  }

  /** Everything two commands wait for, finished; the two themselves untouched. */
  lemma ReadyForBoth(g: seq<Node>, a: nat, b: nat) returns (s: seq<Event>)
    requires WellFormed(g) && a < |g| && b < |g| && !Before(g, a, b) && !Before(g, b, a)
    ensures Legal(g, s) && Start(a) !in s && Finish(a) !in s && Start(b) !in s && Finish(b) !in s
    ensures forall i: nat :: i in Ancestors(g, a) + Ancestors(g, b) ==> Finish(i) in s
  {
    var picked := Ancestors(g, a) + Ancestors(g, b);
    AncestorsDownClosed(g, a);
    AncestorsDownClosed(g, b);
    NotOwnAncestor(g, a);
    NotOwnAncestor(g, b);
    assert a !in picked && b !in picked;
    s := InOrder(picked, |g|);
    InOrderLegal(g, picked, |g|);
    InOrderHolds(picked, |g|);
  }

  /** From a schedule in which both are ready, both can be started. */
  lemma StartBoth(g: seq<Node>, s: seq<Event>, a: nat, b: nat)
    requires Legal(g, s) && a != b && CanStep(g, s, Start(a)) && CanStep(g, s, Start(b)) && Finish(a) !in s
          && Finish(b) !in s
    ensures CanOverlap(g, a, b)
  {
    LegalSnoc(g, s, Start(a));
    StillReady(g, s, a, b);
    LegalSnoc(g, s + [Start(a)], Start(b));
    BothRunning(s, a, b);
  }

  lemma StillReady(g: seq<Node>, s: seq<Event>, a: nat, b: nat)
    requires a != b && CanStep(g, s, Start(b))
    ensures CanStep(g, s + [Start(a)], Start(b))
  {
  }

  lemma BothRunning(s: seq<Event>, a: nat, b: nat)
    requires Finish(a) !in s && Finish(b) !in s
    ensures Running(s + [Start(a)] + [Start(b)], a) && Running(s + [Start(a)] + [Start(b)], b)
  {
  }

  lemma OverlapWitness(g: seq<Node>, a: nat, b: nat)
    requires WellFormed(g) && a < |g| && b < |g| && a != b && !Before(g, a, b) && !Before(g, b, a)
    ensures CanOverlap(g, a, b)
  {
    var s := ReadyForBoth(g, a, b);
    var picked := Ancestors(g, a) + Ancestors(g, b);
    CanStart(g, s, picked, a);
    CanStart(g, s, picked, b);
    StartBoth(g, s, a, b);
  }

  /** Two commands never overlap exactly when one is an ancestor of the other. */
  lemma OverlapIff(g: seq<Node>, a: nat, b: nat)
    requires WellFormed(g) && a < |g| && b < |g| && a != b
    ensures CanOverlap(g, a, b) <==> !Before(g, a, b) && !Before(g, b, a)
  {
    if !Before(g, a, b) && !Before(g, b, a) {
      OverlapWitness(g, a, b);
    }
    if s :| Legal(g, s) && Running(s, a) && Running(s, b) {
      if Before(g, a, b) { NotBothRunning(g, s, a, b); }
      if Before(g, b, a) { NotBothRunning(g, s, b, a); }
    }
  }

  lemma NotBothRunning(g: seq<Node>, s: seq<Event>, a: nat, b: nat)
    requires Legal(g, s) && Before(g, a, b) && Start(b) in s
    ensures Finish(a) in s
  {
    OrderIsRespected(g, s, a, b);
    var p :| 0 <= p < |s| && s[p] == Start(b);
    assert Finish(a) in s[..p];
  }

  /** No execution gets stuck: as long as some command has not finished, some step is possible. */
  lemma NeverStuck(g: seq<Node>, s: seq<Event>, n: nat)
    requires WellFormed(g) && Legal(g, s) && n < |g| && Finish(n) !in s
    ensures exists e :: CanStep(g, s, e)
    decreases n
  {
    if Start(n) in s {
      assert CanStep(g, s, Finish(n));
    } else if d :| d in g[n].deps && Finish(d) !in s {
      NeverStuck(g, s, d);
    } else {
      assert CanStep(g, s, Start(n));
    }
  }

  // ---- Commands that must take turns ----

  /** What two commands of one lane contend for: a host's package lock and fstab, or a database's catalog. */
  datatype Lane = Free | HostSetup(scope: string, host: string) | RoleCatalog(scope: string, database: string)

  function LaneOf(cmd: Command): Lane {
    match cmd.kind
    case Install => HostSetup(cmd.scope, cmd.host)
    case Mount => HostSetup(cmd.scope, cmd.host)
    case Init => HostSetup(cmd.scope, cmd.host)
    case Config => HostSetup(cmd.scope, cmd.host)
    case CreateDatabase(_) => HostSetup(cmd.scope, cmd.host)
    case BackupInstall => HostSetup(cmd.scope, cmd.host)
    case Mint(_, database) => RoleCatalog(cmd.scope, database)
    case _ => Free
  }

  /** The newest command of a lane. */
  function LastIn(g: seq<Node>, lane: Lane): (r: Option<nat>)
    ensures r.Some? ==> r.value < |g|
  {
    if g == [] then None
    else if LaneOf(g[|g| - 1].cmd) == lane then Some(|g| - 1)
    else LastIn(g[..|g| - 1], lane)
  }

  lemma {:induction false} LastInIs(g: seq<Node>, lane: Lane)
    ensures match LastIn(g, lane)
      case Some(m) => LaneOf(g[m].cmd) == lane && forall i | m < i < |g| :: LaneOf(g[i].cmd) != lane
      case None => forall i | 0 <= i < |g| :: LaneOf(g[i].cmd) != lane
    decreases |g|
  {
    if g != [] { LastInIs(g[..|g| - 1], lane); }
  }

  function Deps(o: Option<nat>): set<nat> { match o { case Some(i) => {i} case None => {} } }

  /** Every two commands of a lane are ordered, in the order they were registered. */
  ghost predicate TakeTurns(g: seq<Node>) {
    forall i, j | 0 <= i < j < |g| && LaneOf(g[i].cmd) != Free && LaneOf(g[i].cmd) == LaneOf(g[j].cmd) ::
      Before(g, i, j)
  }

  /** Registering a command after the newest one of its lane keeps the lane in turn. */
  lemma TurnsKept(g: seq<Node>, n: Node)
    requires WellFormed(g) && TakeTurns(g) && (forall d | d in n.deps :: d < |g|)
    requires LaneOf(n.cmd) == Free || Deps(LastIn(g, LaneOf(n.cmd))) <= n.deps
    ensures TakeTurns(g + [n])
  {
    var h := g + [n];
    forall i, j | 0 <= i < j < |h| && LaneOf(h[i].cmd) != Free && LaneOf(h[i].cmd) == LaneOf(h[j].cmd)
      ensures Before(h, i, j)
    {
      if j < |g| {
        BeforeStable(g, h, i, j);
      } else {
        LastInIs(g, LaneOf(n.cmd));
        var last := LastIn(g, LaneOf(n.cmd)).value;
        assert last in h[j].deps;
        assert Before(h, last, j);
        if i != last {
          BeforeStable(g, h, i, last);
          BeforeTransitive(h, i, last, j);
        }
      }
    }
  }

  /** In no execution are two commands of a lane in flight together. */
  lemma LaneNeverOverlaps(g: seq<Node>, a: nat, b: nat)
    requires WellFormed(g) && TakeTurns(g) && a < |g| && b < |g| && a != b
    requires LaneOf(g[a].cmd) != Free && LaneOf(g[a].cmd) == LaneOf(g[b].cmd)
    ensures !CanOverlap(g, a, b)
  {
    OverlapIff(g, a, b);
    if a < b { assert Before(g, a, b); } else { assert Before(g, b, a); }
  }
}
