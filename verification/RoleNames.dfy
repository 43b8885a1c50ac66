/** The database role names of a scope and the check that keeps them usable (program/program.go checkDBRoleNames). */
module RoleNames {
  import opened Common

  const MAX_IDENTIFIER := 63

  /** What a role is for: a cluster's monitor, or one service's grant on one database. */
  datatype Claim = Monitor(cluster: string) | Grant(service: string, database: string)

  datatype Service = Service(name: string, databases: seq<string>)

  datatype Scope = Scope(env: string, slug: string, clusters: seq<string>, services: seq<Service>)

  function Dashed(a: string, b: string): string { a + "-" + b }

  /** The resource name of a role; the global scope has no slug. */
  function RoleName(env: string, slug: string, c: Claim): string {
    var name := match c case Monitor(cluster) => Dashed(cluster, "otelmon") case Grant(s, d) => Dashed(s, d);
    if slug == "" then "wardnet-" + env + "-dbrole-" + name else "wardnet-" + env + "-" + slug + "-dbrole-" + name
  }

  /** What Postgres keeps of an identifier. */
  function Stored(name: string): string { if |name| > MAX_IDENTIFIER then name[..MAX_IDENTIFIER] else name }

  function GrantClaims(s: Service, n: nat): seq<Claim>
    requires n <= |s.databases|
  {
    if n == 0 then [] else GrantClaims(s, n - 1) + [Grant(s.name, s.databases[n - 1])]
  }

  function MonitorClaims(clusters: seq<string>, n: nat): seq<Claim>
    requires n <= |clusters|
  {
    if n == 0 then [] else MonitorClaims(clusters, n - 1) + [Monitor(clusters[n - 1])]
  }

  function ServiceClaims(services: seq<Service>, n: nat): seq<Claim>
    requires n <= |services|
  {
    if n == 0 then [] else ServiceClaims(services, n - 1) + GrantClaims(services[n - 1], |services[n - 1].databases|)
  }

  /** Every role a scope derives. */
  function Claims(sc: Scope): seq<Claim> {
    MonitorClaims(sc.clusters, |sc.clusters|) + ServiceClaims(sc.services, |sc.services|)
  }

  // ---- The check ----

  /** Names short enough to be stored as written, and all different. */
  ghost predicate Usable(sc: Scope, claims: seq<Claim>) {
    && (forall i | 0 <= i < |claims| :: |RoleName(sc.env, sc.slug, claims[i])| <= MAX_IDENTIFIER)
    && forall i, j | 0 <= i < j < |claims| ::
      RoleName(sc.env, sc.slug, claims[i]) != RoleName(sc.env, sc.slug, claims[j])
  }

  class NameCheck {
    const sc: Scope
    var owner: set<string>
    ghost var claimed: seq<Claim>

    ghost predicate Valid()
      reads this
    {
      Usable(sc, claimed) && forall n :: n in owner <==>
        exists i :: 0 <= i < |claimed| && RoleName(sc.env, sc.slug, claimed[i]) == n
    }

    constructor (sc: Scope)
      ensures Valid() && this.sc == sc && claimed == []
    {
      this.sc, owner, claimed := sc, {}, [];
    }

    method Claim(c: Claim) returns (ok: bool)
      requires Valid()
      modifies this
      ensures ok <==> Usable(sc, old(claimed) + [c])
      ensures ok ==> Valid() && claimed == old(claimed) + [c]
    {
      var role := RoleName(sc.env, sc.slug, c);
      ghost var all := claimed + [c];
      assert all[|claimed|] == c;
      if |role| > MAX_IDENTIFIER {
        return false;
      }
      if role in owner {
        ghost var i :| 0 <= i < |claimed| && RoleName(sc.env, sc.slug, claimed[i]) == role;
        assert all[i] == claimed[i];
        return false;
      }
      forall n ensures n in owner + {role} <==> exists i :: 0 <= i < |all| && RoleName(sc.env, sc.slug, all[i]) == n {
        if n in owner {
          var i :| 0 <= i < |claimed| && RoleName(sc.env, sc.slug, claimed[i]) == n;
          assert all[i] == claimed[i];
        }
      }
      owner := owner + {role};
      claimed := all;
      ok := true;
    }

    method ClaimAll(claims: seq<Claim>) returns (ok: bool)
      requires Valid() && claimed == []
      modifies this
      ensures ok <==> Usable(sc, claims)
    {
      for i := 0 to |claims|
        invariant Valid() && claimed == claims[..i]
      {
        assert claims[..i] + [claims[i]] == claims[..i + 1];
        ok := Claim(claims[i]);
        if !ok {
          UnusablePrefix(sc, claims[..i + 1], claims);
          return;
        }
      }
      assert claims[..|claims|] == claims;
      ok := true;
    }
  }

  lemma UnusablePrefix(sc: Scope, a: seq<Claim>, b: seq<Claim>)
    requires a <= b && !Usable(sc, a)
    ensures !Usable(sc, b)
  {
    assert forall i | 0 <= i < |a| :: a[i] == b[i];
  }

  /** Monitor roles first, then every service's database grants. */
  method CheckDbRoleNames(sc: Scope) returns (ok: bool)
    ensures ok <==> Usable(sc, Claims(sc))
  {
    var check := new NameCheck(sc);
    ok := check.ClaimAll(Claims(sc));
  }

  /** Accepted means exactly: Postgres stores every role under the name the deployment uses, and no two share one. */
  lemma AcceptedIffStoredAsDerived(sc: Scope, claims: seq<Claim>)
    ensures Usable(sc, claims) <==>
      && (forall i | 0 <= i < |claims| ::
            Stored(RoleName(sc.env, sc.slug, claims[i])) == RoleName(sc.env, sc.slug, claims[i]))
      && (forall i, j | 0 <= i < j < |claims| ::
            Stored(RoleName(sc.env, sc.slug, claims[i])) != Stored(RoleName(sc.env, sc.slug, claims[j])))
  {
    forall i | 0 <= i < |claims|
      ensures Stored(RoleName(sc.env, sc.slug, claims[i])) == RoleName(sc.env, sc.slug, claims[i])
              <==> |RoleName(sc.env, sc.slug, claims[i])| <= MAX_IDENTIFIER
    {
    }
  }

  // ---- The join is not injective ----

  /** Two dash-joined pairs coincide exactly when a dashed middle part moved from one side to the other. */
  lemma DashedEqualIff(a: string, b: string, c: string, d: string)
    ensures Dashed(a, b) == Dashed(c, d) <==>
      || (a == c && b == d)
      || (exists m :: c == Dashed(a, m) && b == Dashed(m, d))
      || (exists m :: a == Dashed(c, m) && d == Dashed(m, b))
  {
    if Dashed(a, b) == Dashed(c, d) {
      if |a| < |c| { ShorterFirst(a, b, c, d); }
      else if |c| < |a| { ShorterFirst(c, d, a, b); }
      else {
        assert a == Dashed(a, b)[..|a|] && b == Dashed(a, b)[|a| + 1..];
        assert c == Dashed(c, d)[..|c|] && d == Dashed(c, d)[|c| + 1..];
      }
    }
    forall m | c == Dashed(a, m) && b == Dashed(m, d) ensures Dashed(a, b) == Dashed(c, d) { Moved(a, m, d); }
    forall m | a == Dashed(c, m) && d == Dashed(m, b) ensures Dashed(a, b) == Dashed(c, d) { Moved(c, m, b); }
  }

  lemma Moved(a: string, m: string, d: string)
    ensures Dashed(a, Dashed(m, d)) == Dashed(Dashed(a, m), d)
  {
  }

  lemma ShorterFirst(a: string, b: string, c: string, d: string)
    requires Dashed(a, b) == Dashed(c, d) && |a| < |c|
    ensures exists m :: c == Dashed(a, m) && b == Dashed(m, d)
  {
    var s := Dashed(a, b);
    var m := c[|a| + 1..];
    assert c == s[..|c|] && a == s[..|a|] && s[|a|] == '-' && b == s[|a| + 1..] && d == s[|c| + 1..] && s[|c|] == '-';
    assert c == s[..|a|] + [s[|a|]] + s[|a| + 1..|c|];
    assert m == s[|a| + 1..|c|];
    assert b == s[|a| + 1..|c|] + [s[|c|]] + s[|c| + 1..];
    assert [s[|a|]] == "-" && [s[|c|]] == "-";
    assert c == Dashed(a, m) && b == Dashed(m, d);
  }

  /** Two different grants, and a monitor and a grant, that derive one role: the check has to refuse both pairs. */
  lemma AmbiguousNames(sc: Scope)
    ensures !Usable(sc, [Grant("a-b", "c"), Grant("a", "b-c")])
    ensures !Usable(sc, [Monitor("main"), Grant("main", "otelmon")])
  {
    var x, y := [Grant("a-b", "c"), Grant("a", "b-c")], [Monitor("main"), Grant("main", "otelmon")];
    assert Dashed("a-b", "c") == Dashed("a", "b-c") == "a-b-c";
    assert RoleName(sc.env, sc.slug, x[0]) == RoleName(sc.env, sc.slug, x[1]);
    assert RoleName(sc.env, sc.slug, y[0]) == RoleName(sc.env, sc.slug, y[1]);
  }
}
