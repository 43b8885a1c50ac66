/** The two server-name checks of the edge, and what passing them means for the rendered TLS servers. */
module Sni {
  import opened Common
  import opened Edge
  import opened NginxEdge

  /** A TLS server: one listen port and every name it answers to. */
  datatype Block = Block(listen: nat, names: seq<string>)

  type Claim = (nat, string)

  function ClaimsFor(listen: nat, names: seq<string>): seq<Claim> {
    if names == [] then [] else [(listen, names[0])] + ClaimsFor(listen, names[1..])
  }

  function ClaimsOf(b: Block): seq<Claim> { ClaimsFor(b.listen, b.names) }

  lemma {:induction false} ClaimsForAt(listen: nat, names: seq<string>)
    ensures |ClaimsFor(listen, names)| == |names|
    ensures forall i | 0 <= i < |names| :: ClaimsFor(listen, names)[i] == (listen, names[i])
    decreases |names|
  {
    if names != [] { ClaimsForAt(listen, names[1..]); }
  }

  lemma ClaimsOfMember(b: Block)
    ensures forall c :: c in ClaimsOf(b) <==> c.0 == b.listen && c.1 in b.names
  {
    ClaimsForAt(b.listen, b.names);
    forall c ensures c in ClaimsOf(b) <==> c.0 == b.listen && c.1 in b.names {
      if c in ClaimsOf(b) { var i :| 0 <= i < |ClaimsOf(b)| && ClaimsOf(b)[i] == c; }
      if c.0 == b.listen && c.1 in b.names {
        var i :| 0 <= i < |b.names| && b.names[i] == c.1;
        assert ClaimsOf(b)[i] == c;
      }
    }
  }

  function Claims(blocks: seq<Block>): seq<Claim> {
    if blocks == [] then [] else Claims(blocks[..|blocks| - 1]) + ClaimsOf(blocks[|blocks| - 1])
  }

  function RouteBlocks(routes: seq<NginxRoute>): (r: seq<Block>)
    ensures |r| == |routes| && forall i | 0 <= i < |r| :: r[i] == Block(routes[i].listen, routes[i].fqdns)
  {
    if routes == [] then [] else [Block(routes[0].listen, routes[0].fqdns)] + RouteBlocks(routes[1..])
  }

  function AppNames(apps: seq<App>): (r: seq<string>)
    ensures |r| == |apps| && forall i | 0 <= i < |r| :: r[i] == apps[i].fqdn
  {
    if apps == [] then [] else [apps[0].fqdn] + AppNames(apps[1..])
  }

  function GatewayNames(gs: seq<NginxGateway>): (r: seq<string>)
    ensures |r| == |gs| && forall i | 0 <= i < |r| :: r[i] == gs[i].fqdn
  {
    if gs == [] then [] else [gs[0].fqdn] + GatewayNames(gs[1..])
  }

  /** One block per name, all on the HTTPS port. */
  function HttpsBlocks(names: seq<string>): seq<Block> {
    if names == [] then [] else HttpsBlocks(names[..|names| - 1]) + [Block(HTTPS_PORT, [names[|names| - 1]])]
  }

  /** Every TLS server rendered on a host: routes, apps, gateway terminations. */
  function Blocks(cfg: HostConfig): seq<Block> {
    RouteBlocks(cfg.routes) + HttpsBlocks(AppNames(cfg.apps) + GatewayNames(cfg.terms))
  }

  // ---- Clashes ----

  /** Two distinct servers with one listen port share a name: nginx cannot tell them apart. */
  ghost predicate Clash(blocks: seq<Block>) {
    exists i, j, name :: 0 <= i < j < |blocks| && blocks[i].listen == blocks[j].listen
                         && name in blocks[i].names && name in blocks[j].names
  }

  ghost predicate Repeats(blocks: seq<Block>) {
    exists i :: 0 <= i < |blocks| && !NoDuplicates(blocks[i].names)
  }

  lemma NoDuplicatesConcat<T>(a: seq<T>, b: seq<T>)
    ensures NoDuplicates(a + b) <==> NoDuplicates(a) && NoDuplicates(b) && forall x | x in a :: x !in b
  {
    var c := a + b;
    if NoDuplicates(c) {
      forall i, j | 0 <= i < j < |a| ensures a[i] != a[j] { assert c[i] != c[j]; }
      forall i, j | 0 <= i < j < |b| ensures b[i] != b[j] { assert c[|a| + i] != c[|a| + j]; }
      forall x | x in a ensures x !in b {
        var i :| 0 <= i < |a| && a[i] == x;
        forall j | 0 <= j < |b| ensures b[j] != x { assert c[i] != c[|a| + j]; }
      }
    }
    if NoDuplicates(a) && NoDuplicates(b) && forall x | x in a :: x !in b {
      forall i, j | 0 <= i < j < |c| ensures c[i] != c[j] {
        if i < |a| <= j { assert c[i] in a && c[j] in b; }
      }
    }
  }

  lemma ClaimsOfNoDuplicates(b: Block)
    ensures NoDuplicates(ClaimsOf(b)) <==> NoDuplicates(b.names)
  {
    ClaimsForAt(b.listen, b.names);
  }

  ghost predicate Claimed(blocks: seq<Block>, c: Claim) {
    exists i :: 0 <= i < |blocks| && blocks[i].listen == c.0 && c.1 in blocks[i].names
  }

  lemma ClaimedSnoc(front: seq<Block>, last: Block, c: Claim)
    ensures Claimed(front + [last], c) <==> Claimed(front, c) || (last.listen == c.0 && c.1 in last.names)
  {
    var all := front + [last];
    assert all[|front|] == last;
    if i :| 0 <= i < |front| && front[i].listen == c.0 && c.1 in front[i].names { assert all[i] == front[i]; }
    if i :| 0 <= i < |all| && all[i].listen == c.0 && c.1 in all[i].names {
      if i < |front| { assert front[i] == all[i]; }
    }
  }

  lemma {:induction false} ClaimsMember(blocks: seq<Block>, c: Claim)
    ensures c in Claims(blocks) <==> Claimed(blocks, c)
    decreases |blocks|
  {
    if blocks != [] {
      var front, last := blocks[..|blocks| - 1], blocks[|blocks| - 1];
      assert blocks == front + [last];
      ClaimsMember(front, c);
      ClaimedSnoc(front, last, c);
      ClaimsOfMember(last);
    }
  }

  ghost predicate SharesWith(blocks: seq<Block>, b: Block) {
    exists i, name :: 0 <= i < |blocks| && blocks[i].listen == b.listen && name in blocks[i].names && name in b.names
  }

  lemma ClashSnoc(front: seq<Block>, last: Block)
    ensures Clash(front + [last]) <==> Clash(front) || SharesWith(front, last)
  {
    var all := front + [last];
    if Clash(front) {
      var i, j, name :| 0 <= i < j < |front| && front[i].listen == front[j].listen && name in front[i].names
        && name in front[j].names;
      assert all[i] == front[i] && all[j] == front[j];
    }
    if i, name :| 0 <= i < |front| && front[i].listen == last.listen && name in front[i].names && name in last.names {
      assert all[i] == front[i] && all[|front|] == last;
    }
    if Clash(all) {
      var i, j, name :| 0 <= i < j < |all| && all[i].listen == all[j].listen && name in all[i].names
        && name in all[j].names;
      if j < |front| { assert front[i] == all[i] && front[j] == all[j]; } else { assert front[i] == all[i]; }
    }
  }

  lemma RepeatsSnoc(front: seq<Block>, last: Block)
    ensures Repeats(front + [last]) <==> Repeats(front) || !NoDuplicates(last.names)
  {
    var all := front + [last];
    if i :| 0 <= i < |front| && !NoDuplicates(front[i].names) { assert all[i] == front[i]; }
    if !NoDuplicates(last.names) { assert all[|front|] == last; }
  }

  lemma CommonClaimIff(front: seq<Block>, last: Block)
    ensures (exists c :: c in Claims(front) && c in ClaimsOf(last)) <==> SharesWith(front, last)
  {
    ClaimsOfMember(last);
    if c :| c in Claims(front) && c in ClaimsOf(last) {
      ClaimsMember(front, c);
      var i :| 0 <= i < |front| && front[i].listen == c.0 && c.1 in front[i].names;
      assert front[i].listen == last.listen && c.1 in front[i].names && c.1 in last.names;
    }
    if i, name :| 0 <= i < |front| && front[i].listen == last.listen && name in front[i].names && name in last.names {
      var c := (last.listen, name);
      ClaimsMember(front, c);
      assert Claimed(front, c);
      assert c in Claims(front) && c in ClaimsOf(last);
    }
  }

  /** Distinct claims mean exactly: no two servers clash and none repeats a name. */
  lemma {:induction false} ClaimsIff(blocks: seq<Block>)
    ensures NoDuplicates(Claims(blocks)) <==> !Clash(blocks) && !Repeats(blocks)
    decreases |blocks|
  {
    if blocks != [] {
      var front, last := blocks[..|blocks| - 1], blocks[|blocks| - 1];
      assert blocks == front + [last];
      ClaimsIff(front);
      NoDuplicatesConcat(Claims(front), ClaimsOf(last));
      ClaimsOfNoDuplicates(last);
      CommonClaimIff(front, last);
      ClashSnoc(front, last);
      RepeatsSnoc(front, last);
    }
  }

  // ---- The checks ----

  ghost predicate SeenIs(seen: set<Claim>, claims: seq<Claim>) { forall c :: c in seen <==> c in claims }

  lemma PrefixDuplicates<T>(a: seq<T>, b: seq<T>)
    requires a <= b && !NoDuplicates(a)
    ensures !NoDuplicates(b)
  {
    var i, j :| 0 <= i < j < |a| && a[i] == a[j];
    assert b[i] == b[j];
  }

  lemma {:induction false} ClaimsPrefix(blocks: seq<Block>, k: nat)
    requires k <= |blocks|
    ensures Claims(blocks[..k]) <= Claims(blocks)
    decreases |blocks|
  {
    if k == |blocks| {
      assert blocks[..k] == blocks;
    } else {
      ClaimsPrefix(blocks[..|blocks| - 1], k);
      assert blocks[..|blocks| - 1][..k] == blocks[..k];
    }
  }

  /** One more server's claims; if they collide with those before them, all of them do. */
  lemma ClaimsGrow(blocks: seq<Block>, k: nat)
    requires k < |blocks|
    ensures Claims(blocks[..k + 1]) == Claims(blocks[..k]) + ClaimsOf(blocks[k])
    ensures !NoDuplicates(Claims(blocks[..k]) + ClaimsOf(blocks[k])) ==> !NoDuplicates(Claims(blocks))
  {
    assert blocks[..k + 1][..k] == blocks[..k] && blocks[..k + 1][k] == blocks[k];
    ClaimsPrefix(blocks, k + 1);
    if !NoDuplicates(Claims(blocks[..k + 1])) { PrefixDuplicates(Claims(blocks[..k + 1]), Claims(blocks)); }
  }

  /** One route's names against everything claimed before it. */
  method CheckRoute(b: Block, seen0: set<Claim>, ghost before: seq<Claim>) returns (seen: set<Claim>, ok: bool)
    requires SeenIs(seen0, before) && NoDuplicates(before)
    ensures ok <==> NoDuplicates(before + ClaimsOf(b))
    ensures ok ==> SeenIs(seen, before + ClaimsOf(b))
  {
    seen := seen0;
    ClaimsForAt(b.listen, b.names);
    for k := 0 to |b.names|
      invariant NoDuplicates(before + ClaimsOf(b)[..k])
      invariant SeenIs(seen, before + ClaimsOf(b)[..k])
    {
      ghost var so := before + ClaimsOf(b)[..k];
      var key := (b.listen, b.names[k]);
      assert ClaimsOf(b)[k] == key;
      assert before + ClaimsOf(b)[..k + 1] == so + [key];
      NoDuplicatesConcat(so, [key]);
      if key in seen {
        assert key in so;
        PrefixDuplicates(before + ClaimsOf(b)[..k + 1], before + ClaimsOf(b));
        return seen, false;
      }
      seen := seen + {key};
    }
    assert ClaimsOf(b)[..|b.names|] == ClaimsOf(b);
    ok := true;
  }

  /** The route check of one host: no (listen, name) pair is claimed twice. */
  method CheckRoutes(routes: seq<NginxRoute>) returns (ok: bool)
    ensures ok <==> NoDuplicates(Claims(RouteBlocks(routes)))
  {
    var seen: set<Claim> := {};
    ghost var blocks := RouteBlocks(routes);
    for k := 0 to |routes|
      invariant NoDuplicates(Claims(blocks[..k])) && SeenIs(seen, Claims(blocks[..k]))
    {
      ClaimsGrow(blocks, k);
      seen, ok := CheckRoute(Block(routes[k].listen, routes[k].fqdns), seen, Claims(blocks[..k]));
      if !ok { return; }
    }
    assert blocks[..|routes|] == blocks;
    ok := true;
  }

  /** The names of the routes terminating TLS on the HTTPS port. */
  function HttpsNames(routes: seq<NginxRoute>): set<string> {
    set rt, name | rt in routes && rt.kind == TlsTermination && rt.listen == HTTPS_PORT && name in rt.fqdns :: name
  }

  method ClaimNames(names: seq<string>, owner0: set<string>) returns (owner: set<string>, ok: bool)
    ensures ok <==> NoDuplicates(names) && forall n | n in names :: n !in owner0
    ensures ok ==> owner == owner0 + set n | n in names
  {
    owner := owner0;
    for k := 0 to |names|
      invariant NoDuplicates(names[..k]) && forall n | n in names[..k] :: n !in owner0
      invariant owner == owner0 + set n | n in names[..k]
    {
      assert names[..k + 1] == names[..k] + [names[k]];
      NoDuplicatesConcat(names[..k], [names[k]]);
      if names[k] in owner {
        if names[k] !in owner0 { PrefixDuplicates(names[..k + 1], names); }
        return owner, false;
      }
      owner := owner + {names[k]};
    }
    assert names[..|names|] == names;
    ok := true;
  }

  /** The app and gateway check of one host. */
  method CheckAppSniCollisions(cfg: HostConfig) returns (ok: bool)
    ensures ok <==> NoDuplicates(AppNames(cfg.apps) + GatewayNames(cfg.terms))
                    && forall n | n in AppNames(cfg.apps) + GatewayNames(cfg.terms) :: n !in HttpsNames(cfg.routes)
  {
    NoDuplicatesConcat(AppNames(cfg.apps), GatewayNames(cfg.terms));
    var owner := HttpsNames(cfg.routes);
    owner, ok := ClaimNames(AppNames(cfg.apps), owner);
    if ok {
      owner, ok := ClaimNames(GatewayNames(cfg.terms), owner);
    }
  }

  // ---- Together ----

  lemma {:induction false} ClaimsConcat(a: seq<Block>, b: seq<Block>)
    ensures Claims(a + b) == Claims(a) + Claims(b)
    decreases |b|
  {
    if b == [] {
      assert a + b == a;
    } else {
      var front, last := b[..|b| - 1], b[|b| - 1];
      ClaimsConcat(a, front);
      var all := a + b;
      assert all[..|all| - 1] == a + front && all[|all| - 1] == last;
      calc {
        Claims(all);
        Claims(a + front) + ClaimsOf(last);
        (Claims(a) + Claims(front)) + ClaimsOf(last);
        Claims(a) + (Claims(front) + ClaimsOf(last));
        Claims(a) + Claims(b);
      }
    }
  }

  lemma {:induction false} HttpsClaims(names: seq<string>)
    ensures Claims(HttpsBlocks(names)) == ClaimsFor(HTTPS_PORT, names)
    decreases |names|
  {
    if names != [] {
      var front, name := names[..|names| - 1], names[|names| - 1];
      HttpsClaims(front);
      var all := HttpsBlocks(names);
      assert all[..|all| - 1] == HttpsBlocks(front) && all[|all| - 1] == Block(HTTPS_PORT, [name]);
      ClaimsForAt(HTTPS_PORT, names);
      ClaimsForAt(HTTPS_PORT, front);
      ClaimsForAt(HTTPS_PORT, [name]);
    }
  }

  /** Only TLS routes carry names. */
  ghost predicate NamesAreTls(routes: seq<NginxRoute>) {
    forall rt | rt in routes && rt.kind != TlsTermination :: rt.fqdns == []
  }

  lemma HttpsRouteClaims(routes: seq<NginxRoute>, n: string)
    requires NamesAreTls(routes)
    ensures (HTTPS_PORT, n) in Claims(RouteBlocks(routes)) <==> n in HttpsNames(routes)
  {
    var a := RouteBlocks(routes);
    ClaimsMember(a, (HTTPS_PORT, n));
    if i :| 0 <= i < |a| && a[i].listen == HTTPS_PORT && n in a[i].names {
      assert routes[i] in routes;
    }
    if n in HttpsNames(routes) {
      var rt :| rt in routes && rt.kind == TlsTermination && rt.listen == HTTPS_PORT && n in rt.fqdns;
      var i :| 0 <= i < |routes| && routes[i] == rt;
      assert a[i].listen == HTTPS_PORT && n in a[i].names;
    }
  }

  lemma HttpsClaimsAre(names: seq<string>)
    ensures NoDuplicates(Claims(HttpsBlocks(names))) <==> NoDuplicates(names)
    ensures forall c :: c in Claims(HttpsBlocks(names)) <==> c.0 == HTTPS_PORT && c.1 in names
  {
    HttpsClaims(names);
    ClaimsOfNoDuplicates(Block(HTTPS_PORT, names));
    ClaimsOfMember(Block(HTTPS_PORT, names));
  }

  /** Both checks pass on a host exactly when every (listen, name) pair of its servers is claimed once. */
  lemma ChecksIff(cfg: HostConfig)
    requires NamesAreTls(cfg.routes)
    ensures var names := AppNames(cfg.apps) + GatewayNames(cfg.terms);
      NoDuplicates(Claims(Blocks(cfg))) <==>
        NoDuplicates(Claims(RouteBlocks(cfg.routes))) && NoDuplicates(names) && forall n | n in names ::
          n !in HttpsNames(cfg.routes)
  {
    var names := AppNames(cfg.apps) + GatewayNames(cfg.terms);
    var a, b := Claims(RouteBlocks(cfg.routes)), Claims(HttpsBlocks(names));
    ClaimsConcat(RouteBlocks(cfg.routes), HttpsBlocks(names));
    NoDuplicatesConcat(a, b);
    HttpsClaimsAre(names);
    forall n ensures (HTTPS_PORT, n) in a <==> n in HttpsNames(cfg.routes) { HttpsRouteClaims(cfg.routes, n); }
    assert (forall x | x in a :: x !in b) <==> forall n | n in names :: n !in HttpsNames(cfg.routes) by {
      if forall x | x in a :: x !in b {
        forall n | n in names ensures n !in HttpsNames(cfg.routes) { assert (HTTPS_PORT, n) in b; }
      }
    }
  }

  lemma RenderedNamesAreTls(res: Resources, host: string)
    ensures NamesAreTls(ConfigOn(res, host).routes)
  {
    RoutesOnMember(Services(res), host);
  }

  /** Both checks over the hosts of a scope: the deploy goes on exactly when no two TLS servers of one host clash and no
      server repeats a name. */
  method CheckEdge(res: Resources, hosts: set<string>) returns (ok: bool)
    ensures ok <==> forall h | h in hosts :: !Clash(Blocks(ConfigOn(res, h))) && !Repeats(Blocks(ConfigOn(res, h)))
  {
    var routesByHost := IngressRoutesByHost(Services(res));
    var todo := hosts;
    while todo != {}
      invariant todo <= hosts
      invariant forall h | h in hosts - todo :: !Clash(Blocks(ConfigOn(res, h))) && !Repeats(Blocks(ConfigOn(res, h)))
    {
      var h := Least(todo);
      var cfg := ConfigOn(res, h);
      RenderedNamesAreTls(res, h);
      ChecksIff(cfg);
      ClaimsIff(Blocks(cfg));
      var routesOk := CheckRoutes(Get(routesByHost, h));
      if !routesOk { return false; }
      var appsOk := CheckAppSniCollisions(cfg);
      if !appsOk { return false; }
      todo := todo - {h};
    }
    ok := true;
  }

  /** The rejection is not always a clash: one route listing a name twice is refused although its server is
      unambiguous. */
  lemma RepeatIsRefused()
    ensures var blocks := [Block(443, ["shop.example.org", "shop.example.org"])];
      !Clash(blocks) && Repeats(blocks) && !NoDuplicates(Claims(blocks))
  {
    var names := ["shop.example.org", "shop.example.org"];
    var blocks := [Block(443, names)];
    assert names[0] == names[1] && !NoDuplicates(blocks[0].names);
    ClaimsIff(blocks);
  }

  // ---- As nginx compares them ----

  function FoldAll(names: seq<string>): (r: seq<string>)
    ensures |r| == |names| && forall i | 0 <= i < |r| :: r[i] == Fold(names[i])
  {
    if names == [] then [] else [Fold(names[0])] + FoldAll(names[1..])
  }

  /** The same servers with their names in lower case. */
  function Folded(blocks: seq<Block>): (r: seq<Block>)
    ensures |r| == |blocks| && forall i | 0 <= i < |r| :: r[i] == Block(blocks[i].listen, FoldAll(blocks[i].names))
  {
    if blocks == [] then [] else [Block(blocks[0].listen, FoldAll(blocks[0].names))] + Folded(blocks[1..])
  }

  ghost predicate FoldsTo(claims: seq<Claim>, folded: seq<Claim>) {
    |folded| == |claims| && forall i | 0 <= i < |claims| :: folded[i] == (claims[i].0, Fold(claims[i].1))
  }

  lemma FoldsConcat(a: seq<Claim>, b: seq<Claim>, x: seq<Claim>, y: seq<Claim>)
    requires FoldsTo(a, x) && FoldsTo(b, y)
    ensures FoldsTo(a + b, x + y)
  {
  }

  lemma {:induction false} FoldedClaims(blocks: seq<Block>)
    ensures FoldsTo(Claims(blocks), Claims(Folded(blocks)))
    decreases |blocks|
  {
    if blocks != [] {
      var front, last := blocks[..|blocks| - 1], blocks[|blocks| - 1];
      FoldedClaims(front);
      ClaimsForAt(last.listen, last.names);
      ClaimsForAt(last.listen, FoldAll(last.names));
      assert Folded(blocks)[..|blocks| - 1] == Folded(front);
      FoldsConcat(Claims(front), ClaimsOf(last), Claims(Folded(front)),
                  ClaimsOf(Block(last.listen, FoldAll(last.names))));
    }
  }

  /** Names of one port that are equal but for case are one name. */
  ghost predicate NoCaseTwins(claims: seq<Claim>) {
    forall c, d | c in claims && d in claims && c.0 == d.0 && SameUpToCase(c.1, d.1) :: c == d
  }

  lemma FoldedDistinctIff(claims: seq<Claim>, folded: seq<Claim>)
    requires FoldsTo(claims, folded)
    ensures NoDuplicates(folded) <==> NoDuplicates(claims) && NoCaseTwins(claims)
  {
    if NoDuplicates(folded) {
      forall i, j | 0 <= i < j < |claims| ensures claims[i] != claims[j] { assert folded[i] != folded[j]; }
      forall c, d | c in claims && d in claims && c.0 == d.0 && SameUpToCase(c.1, d.1) ensures c == d {
        var i :| 0 <= i < |claims| && claims[i] == c;
        var j :| 0 <= j < |claims| && claims[j] == d;
        FoldEqualIff(c.1, d.1);
        assert folded[i] == folded[j];
      }
    }
    if NoDuplicates(claims) && NoCaseTwins(claims) {
      forall i, j | 0 <= i < j < |folded| ensures folded[i] != folded[j] {
        FoldEqualIff(claims[i].1, claims[j].1);
        assert claims[i] in claims && claims[j] in claims && claims[i] != claims[j];
      }
    }
  }

  /** On a host that passed the checks, servers are apart for nginx, which ignores case, exactly when no two names
      claimed on one port differ in case alone. */
  lemma ApartForNginxIff(cfg: HostConfig)
    requires !Clash(Blocks(cfg)) && !Repeats(Blocks(cfg))
    ensures !Clash(Folded(Blocks(cfg))) && !Repeats(Folded(Blocks(cfg))) <==> NoCaseTwins(Claims(Blocks(cfg)))
  {
    ClaimsIff(Blocks(cfg));
    ClaimsIff(Folded(Blocks(cfg)));
    FoldedClaims(Blocks(cfg));
    FoldedDistinctIff(Claims(Blocks(cfg)), Claims(Folded(Blocks(cfg))));
  }

  /** Two servers whose names differ in case alone pass, and clash for nginx. */
  lemma CaseTwinsPass(listen: nat, a: string, b: string)
    requires a != b && SameUpToCase(a, b)
    ensures var blocks := [Block(listen, [a]), Block(listen, [b])];
      NoDuplicates(Claims(blocks)) && Clash(Folded(blocks))
  {
    var blocks := [Block(listen, [a]), Block(listen, [b])];
    assert Folded(blocks)[0] == Block(listen, FoldAll([a])) && Folded(blocks)[1] == Block(listen, FoldAll([b]));
    FoldEqualIff(a, b);
    var folded := Folded(blocks);
    assert folded[0].names[0] == Fold(a) == folded[1].names[0];
    assert Fold(a) in folded[0].names && Fold(a) in folded[1].names;
    ClaimsIff(blocks);
  }
}
