/** The A records of a scope (program/program.go derivedRecords and createDNSRecords, internal/naming). */
module Dns {
  import opened Common
  import opened Edge
  import opened NginxEdge

  predicate HasSuffix(s: string, suffix: string) { |suffix| <= |s| && s[|s| - |suffix|..] == suffix }

  predicate InZone(fqdn: string, zone: string) { fqdn == zone || HasSuffix(fqdn, "." + zone) }

  /** The name inside the zone; an out-of-zone name comes back unchanged. */
  function ZoneRelative(fqdn: string, zone: string): string {
    if fqdn == zone then "@"
    else if HasSuffix(fqdn, "." + zone) then fqdn[..|fqdn| - |zone| - 1]
    else fqdn
  }

  /** The absolute name a record lands on once the provider appends the zone. */
  function Absolute(rel: string, zone: string): string { if rel == "@" then zone else rel + "." + zone }

  /** A record lands on the name it was derived from exactly when that name is in the zone and not the literal "@". */
  lemma LandsWhereDerivedIff(fqdn: string, zone: string)
    ensures Absolute(ZoneRelative(fqdn, zone), zone) == fqdn <==> InZone(fqdn, zone) && fqdn != "@." + zone
  {
    var rel := ZoneRelative(fqdn, zone);
    if fqdn != zone && HasSuffix(fqdn, "." + zone) {
      assert fqdn == rel + fqdn[|fqdn| - |zone| - 1..];
      assert fqdn == rel + ("." + zone) == rel + "." + zone;
      assert rel == "@" <==> fqdn == "@." + zone by {
        if fqdn == "@." + zone { assert rel == ("@." + zone)[..1]; }
      }
      assert |zone| < |"@." + zone|;
    } else if fqdn != zone {
      assert |fqdn + "." + zone| > |fqdn|;
      assert ("@." + zone)[1..] == "." + zone;
    }
  }

  /** Every record name lands on one name of the zone, and distinct record names on distinct ones. */
  lemma RelativeOfAbsolute(rel: string, zone: string)
    ensures ZoneRelative(Absolute(rel, zone), zone) == rel
    ensures InZone(Absolute(rel, zone), zone) && Absolute(rel, zone) != "@." + zone
  {
    var fqdn := Absolute(rel, zone);
    if rel != "@" {
      assert fqdn == rel + ("." + zone);
      assert fqdn[|rel|..] == "." + zone && fqdn[..|rel|] == rel;
    }
    LandsWhereDerivedIff(fqdn, zone);
  }

  /** The records landing on a name: the zone-relative one if it was created and the name can have one, and no other. */
  lemma LandsOnlyHere(rel: string, name: string, zone: string)
    ensures Absolute(rel, zone) == name <==>
      rel == ZoneRelative(name, zone) && InZone(name, zone) && name != "@." + zone
  {
    RelativeOfAbsolute(rel, zone);
    LandsWhereDerivedIff(name, zone);
  }

  datatype Derivation = Derivation(fqdn: string, host: string)

  /** A derived record: the name it gets inside the zone, its host, and whether the name it came from is in the zone. */
  datatype Record = Record(rel: string, host: string, inZone: bool)

  function RecordOf(d: Derivation, zone: string): Record {
    Record(ZoneRelative(d.fqdn, zone), d.host, InZone(d.fqdn, zone))
  }

  function Records(ds: seq<Derivation>, zone: string): (r: seq<Record>)
    ensures |r| == |ds|
  {
    if ds == [] then [] else [RecordOf(ds[0], zone)] + Records(ds[1..], zone)
  }

  lemma {:induction false} RecordAt(ds: seq<Derivation>, zone: string, i: nat)
    requires i < |ds|
    ensures Records(ds, zone)[i] == RecordOf(ds[i], zone)
    decreases i
  {
    if i > 0 { RecordAt(ds[1..], zone, i - 1); }
  }

  // ---- What is derived, in order ----

  function NamesAt(names: seq<string>, host: string): (r: seq<Derivation>)
    ensures forall d :: d in r <==> d.host == host && d.fqdn in names
  {
    if names == [] then [] else [Derivation(names[0], host)] + NamesAt(names[1..], host)
  }

  function OfRoutes(s: IngressService, routes: seq<Route>): seq<Derivation> {
    if routes == [] then [] else NamesAt(IngressFqdns(s.svc, routes[0]), s.ingHost) + OfRoutes(s, routes[1..])
  }

  function OfServices(ss: seq<IngressService>): seq<Derivation> {
    if ss == [] then []
    else OfRoutes(ss[0], ss[0].svc.routes)
         + (if ss[0].svc.healthPort > 0 then [Derivation(ss[0].svc.fqdn, ss[0].ingHost)] else [])
         + OfServices(ss[1..])
  }

  function OfComputes(cs: seq<Compute>): seq<Derivation> {
    if cs == [] then [] else [Derivation(cs[0].fqdn, cs[0].firstInstance)] + OfComputes(cs[1..])
  }

  function OfHealths(hs: seq<GatewayHealth>): seq<Derivation> {
    if hs == [] then [] else [Derivation(hs[0].svc.fqdn, hs[0].gwHost)] + OfHealths(hs[1..])
  }

  function OfApps(apps: seq<IngressApp>): seq<Derivation> {
    if apps == [] then [] else [Derivation(apps[0].app.fqdn, apps[0].ingHost)] + OfApps(apps[1..])
  }

  function OfGateways(gs: seq<EdgeGateway>): seq<Derivation> {
    if gs == [] then [] else [Derivation(gs[0].gw.fqdn, gs[0].ingHost)] + OfGateways(gs[1..])
  }

  function OfIngresses(res: Resources, ings: seq<Ingress>): seq<Derivation> {
    if ings == [] then []
    else (if ings[0].host in res.canonical then [Derivation(res.ingressFqdn, res.canonical[ings[0].host])] else [])
         + OfIngresses(res, ings[1..])
  }

  function Derivations(res: Resources): seq<Derivation> {
    OfComputes(res.computes) + OfServices(Services(res)) + OfHealths(GatewayHealths(res)) + OfApps(Apps(res))
    + OfGateways(Gateways(res)) + OfIngresses(res, res.ingresses)
  }

  // ---- Every rendered server name is derived at its host ----

  ghost predicate ServerName(cfg: HostConfig, name: string) {
    || (exists rt :: rt in cfg.routes && name in rt.fqdns)
    || (exists h :: h in cfg.health && h.fqdn == name)
    || (exists a :: a in cfg.apps && a.fqdn == name)
    || (exists g :: g in cfg.terms && g.fqdn == name)
  }

  lemma {:induction false} RouteNamesDerived(s: IngressService, routes: seq<Route>, rt: Route, name: string)
    requires rt in routes && name in IngressFqdns(s.svc, rt)
    ensures Derivation(name, s.ingHost) in OfRoutes(s, routes)
    decreases |routes|
  {
    if rt != routes[0] { RouteNamesDerived(s, routes[1..], rt, name); }
  }

  lemma {:induction false} ServiceDerived(ss: seq<IngressService>, s: IngressService)
    requires s in ss
    ensures forall d | d in OfRoutes(s, s.svc.routes) :: d in OfServices(ss)
    ensures s.svc.healthPort > 0 ==> Derivation(s.svc.fqdn, s.ingHost) in OfServices(ss)
    decreases |ss|
  {
    if s != ss[0] { ServiceDerived(ss[1..], s); }
  }

  lemma {:induction false} HealthDerived(hs: seq<GatewayHealth>, h: GatewayHealth)
    requires h in hs
    ensures Derivation(h.svc.fqdn, h.gwHost) in OfHealths(hs)
    decreases |hs|
  {
    if h != hs[0] { HealthDerived(hs[1..], h); }
  }

  lemma {:induction false} AppDerived(apps: seq<IngressApp>, a: IngressApp)
    requires a in apps
    ensures Derivation(a.app.fqdn, a.ingHost) in OfApps(apps)
    decreases |apps|
  {
    if a != apps[0] { AppDerived(apps[1..], a); }
  }

  lemma {:induction false} GatewayDerived(gs: seq<EdgeGateway>, g: EdgeGateway)
    requires g in gs
    ensures Derivation(g.gw.fqdn, g.ingHost) in OfGateways(gs)
    decreases |gs|
  {
    if g != gs[0] { GatewayDerived(gs[1..], g); }
  }

  lemma ServerNamesAreDerived(res: Resources, host: string, name: string)
    requires ServerName(ConfigOn(res, host), name)
    ensures Derivation(name, host) in Derivations(res)
  {
    var cfg := ConfigOn(res, host);
    if rt :| rt in cfg.routes && name in rt.fqdns {
      RoutesOnMember(Services(res), host);
      var s, r :| s in Services(res) && s.ingHost == host && r in s.svc.routes && rt == RouteOf(s, r);
      RouteNamesDerived(s, s.svc.routes, r, name);
      ServiceDerived(Services(res), s);
    } else if h :| h in cfg.health && h.fqdn == name {
      HealthNameDerived(res, host, h);
    } else if a :| a in cfg.apps && a.fqdn == name {
      AppsOnMember(Apps(res), host);
      AppDerived(Apps(res), IngressApp(a, host));
    } else {
      var t :| t in cfg.terms && t.fqdn == name;
      TermsOnMember(Gateways(res), host);
      var g :| g in Gateways(res) && g.ingHost == host && t == NginxGateway(g.gw.name, g.gw.fqdn, g.CoLocated());
      GatewayDerived(Gateways(res), g);
    }
  }

  lemma HealthNameDerived(res: Resources, host: string, h: NginxHealth)
    requires h in ConfigOn(res, host).health
    ensures Derivation(h.fqdn, host) in Derivations(res)
  {
    if h in HealthOn(Services(res), host) {
      HealthOnMember(Services(res), host);
      var s :| s in Services(res) && s.ingHost == host && s.svc.healthPort > 0 && h == HealthOf(s.svc, s.CoLocated());
      ServiceDerived(Services(res), s);
    } else {
      GatewayHealthOnMember(GatewayHealths(res), host);
      var g :| g in GatewayHealths(res) && g.gwHost == host && h == HealthOf(g.svc, g.CoLocated());
      HealthDerived(GatewayHealths(res), g);
    }
  }

  // ---- Deduplication ----

  predicate SameKey(a: Record, b: Record) { a.rel == b.rel && a.host == b.host }

  predicate Covers(kept: seq<Record>, r: Record) { exists k :: 0 <= k < |kept| && SameKey(kept[k], r) }

  /** One record per (name, host): the first. */
  function Dedup(rs: seq<Record>): seq<Record> {
    if rs == [] then []
    else
      var kept, last := Dedup(rs[..|rs| - 1]), rs[|rs| - 1];
      if Covers(kept, last) then kept else kept + [last]
  }

  method DerivedRecords(rs: seq<Record>) returns (out: seq<Record>)
    ensures out == Dedup(rs)
  {
    var seen: set<(string, string)> := {};
    out := [];
    for k := 0 to |rs|
      invariant out == Dedup(rs[..k])
      invariant forall r: Record :: (r.rel, r.host) in seen <==> Covers(out, r)
    {
      assert rs[..k + 1][..k] == rs[..k] && rs[..k + 1][k] == rs[k];
      var key := (rs[k].rel, rs[k].host);
      if key !in seen {
        forall r: Record ensures (r.rel, r.host) in seen + {key} <==> Covers(out + [rs[k]], r) {
          CoversSnoc(out, rs[k], r);
        }
        seen := seen + {key};
        out := out + [rs[k]];
      }
    }
    assert rs[..|rs|] == rs;
  }

  ghost predicate FirstOfKey(rs: seq<Record>, i: nat) {
    i < |rs| && forall j | 0 <= j < i :: !SameKey(rs[j], rs[i])
  }

  lemma {:induction false} CoveredIff(rs: seq<Record>, r: Record)
    ensures Covers(Dedup(rs), r) <==> Covers(rs, r)
    decreases |rs|
  {
    if rs != [] {
      var front, last := rs[..|rs| - 1], rs[|rs| - 1];
      CoveredIff(front, r);
      CoveredIff(front, last);
      CoversSnoc(front, last, r);
      CoversSnoc(Dedup(front), last, r);
      assert rs == front + [last];
      if SameKey(last, r) && Covers(Dedup(front), last) {
        var k :| 0 <= k < |Dedup(front)| && SameKey(Dedup(front)[k], last);
        assert SameKey(Dedup(front)[k], r);
      }
    }
  }

  lemma CoversSnoc(front: seq<Record>, last: Record, r: Record)
    ensures Covers(front + [last], r) <==> Covers(front, r) || SameKey(last, r)
  {
    var all := front + [last];
    assert all[|front|] == last;
    if k :| 0 <= k < |front| && SameKey(front[k], r) { assert SameKey(all[k], r); }
    if k :| 0 <= k < |all| && SameKey(all[k], r) {
      if k < |front| { assert SameKey(front[k], r); }
    }
  }

  /** Everything kept is the first of its key. */
  lemma {:induction false} KeptIsFirst(rs: seq<Record>, k: nat) returns (i: nat)
    requires k < |Dedup(rs)|
    ensures FirstOfKey(rs, i) && rs[i] == Dedup(rs)[k]
    decreases |rs|
  {
    var front, last := rs[..|rs| - 1], rs[|rs| - 1];
    if k < |Dedup(front)| {
      i := KeptIsFirst(front, k);
    } else {
      i := |front|;
      CoveredIff(front, last);
      assert forall j | 0 <= j < i :: rs[j] == front[j];
    }
  }

  /** The first of every key is kept. */
  lemma {:induction false} FirstIsKept(rs: seq<Record>, i: nat) returns (k: nat)
    requires FirstOfKey(rs, i)
    ensures k < |Dedup(rs)| && Dedup(rs)[k] == rs[i]
    decreases |rs|
  {
    var front, last := rs[..|rs| - 1], rs[|rs| - 1];
    if i < |front| {
      assert FirstOfKey(front, i);
      k := FirstIsKept(front, i);
    } else {
      CoveredIff(front, last);
      forall j | 0 <= j < |front| ensures !SameKey(front[j], last) { assert front[j] == rs[j]; }
      k := |Dedup(front)|;
    }
  }

  lemma {:induction false} FirstWithKey(rs: seq<Record>, i: nat) returns (f: nat)
    requires i < |rs|
    ensures f <= i && FirstOfKey(rs, f) && SameKey(rs[f], rs[i])
    decreases i
  {
    if j :| 0 <= j < i && SameKey(rs[j], rs[i]) {
      f := FirstWithKey(rs, j);
    } else {
      f := i;
    }
  }

  lemma {:induction false} KeysDistinct(rs: seq<Record>, k: nat, l: nat)
    requires k < l < |Dedup(rs)|
    ensures !SameKey(Dedup(rs)[k], Dedup(rs)[l])
    decreases |rs|
  {
    var front := rs[..|rs| - 1];
    if l < |Dedup(front)| {
      KeysDistinct(front, k, l);
    } else {
      assert Dedup(rs)[k] == Dedup(front)[k];
    }
  }

  // ---- Creation ----

  ghost predicate CreatableTo(rs: seq<Record>, n: nat, compute: set<string>)
    requires n <= |rs|
  {
    && (forall i | 0 <= i < n :: rs[i].inZone && rs[i].host in compute)
    && (forall i, j | 0 <= i < j < n :: rs[i].rel != rs[j].rel)
  }

  ghost predicate CanCreate(rs: seq<Record>, compute: set<string>) { CreatableTo(rs, |rs|, compute) }

  ghost predicate CreatedTo(created: map<string, string>, rs: seq<Record>, n: nat)
    requires n <= |rs|
  {
    && (forall i | 0 <= i < n :: rs[i].rel in created && created[rs[i].rel] == rs[i].host)
    && (forall rel | rel in created :: exists i :: 0 <= i < n && rs[i].rel == rel)
  }

  ghost predicate CreatedIs(created: map<string, string>, rs: seq<Record>) { CreatedTo(created, rs, |rs|) }

  lemma CreatedStep(was: map<string, string>, rs: seq<Record>, k: nat)
    requires k < |rs| && CreatedTo(was, rs, k) && rs[k].rel !in was
    ensures CreatedTo(was[rs[k].rel := rs[k].host], rs, k + 1)
  {
    var created := was[rs[k].rel := rs[k].host];
    forall rel | rel in created ensures exists i :: 0 <= i < k + 1 && rs[i].rel == rel {
      if rel == rs[k].rel { assert rs[k].rel == rel; }
    }
  }

  lemma CreatableStep(was: map<string, string>, rs: seq<Record>, k: nat, compute: set<string>)
    requires k < |rs| && CreatedTo(was, rs, k) && CreatableTo(rs, k, compute)
    requires rs[k].rel !in was && rs[k].inZone && rs[k].host in compute
    ensures CreatableTo(rs, k + 1, compute)
  {
    forall i | 0 <= i < k ensures rs[i].rel != rs[k].rel { assert rs[i].rel in was; }
  }

  lemma RefusalIsRight(rs: seq<Record>, k: nat, created: map<string, string>, compute: set<string>)
    requires k < |rs| && CreatedTo(created, rs, k)
    requires !rs[k].inZone || rs[k].rel in created || rs[k].host !in compute
    ensures !CanCreate(rs, compute)
  {
    if rs[k].rel in created { var i :| 0 <= i < k && rs[i].rel == rs[k].rel; }
  }

  /** Creates every record in turn; fails on an out-of-zone name, a name already created, or an unknown host. */
  method CreateDnsRecords(rs: seq<Record>, compute: set<string>) returns (created: map<string, string>, ok: bool)
    ensures ok <==> CanCreate(rs, compute)
    ensures ok ==> CreatedIs(created, rs)
  {
    created := map[];
    for k := 0 to |rs|
      invariant CreatableTo(rs, k, compute) && CreatedTo(created, rs, k)
    {
      if !rs[k].inZone || rs[k].rel in created || rs[k].host !in compute {
        RefusalIsRight(rs, k, created, compute);
        return created, false;
      }
      CreatableStep(created, rs, k, compute);
      CreatedStep(created, rs, k);
      created := created[rs[k].rel := rs[k].host];
    }
    ok := true;
  }

  /** An out-of-zone name that the deduplication folds into an earlier in-zone one on the same host. */
  ghost predicate Hidden(rs: seq<Record>, i: nat) {
    i < |rs| && !rs[i].inZone && exists j :: 0 <= j < i && rs[j].inZone && SameKey(rs[j], rs[i])
  }

  ghost predicate Acceptable(rs: seq<Record>, compute: set<string>) {
    && (forall i | 0 <= i < |rs| :: (rs[i].inZone || Hidden(rs, i)) && rs[i].host in compute)
    && (forall i, j | 0 <= i < |rs| && 0 <= j < |rs| && rs[i].rel == rs[j].rel :: rs[i].host == rs[j].host)
  }

  lemma KeptIndex(rs: seq<Record>, i: nat) returns (f: nat, k: nat)
    requires i < |rs|
    ensures f <= i && SameKey(rs[f], rs[i]) && k < |Dedup(rs)| && Dedup(rs)[k] == rs[f]
  {
    f := FirstWithKey(rs, i);
    k := FirstIsKept(rs, f);
  }

  /** The deploy accepts a scope's names exactly when each is in the zone or hidden, no record name has two hosts, and
      every host exists. */
  lemma AcceptedIff(rs: seq<Record>, compute: set<string>)
    ensures CanCreate(Dedup(rs), compute) <==> Acceptable(rs, compute)
  {
    if CanCreate(Dedup(rs), compute) { CreatableIsAcceptable(rs, compute); }
    if Acceptable(rs, compute) { AcceptableIsCreatable(rs, compute); }
  }

  lemma CreatableIsAcceptable(rs: seq<Record>, compute: set<string>)
    requires CanCreate(Dedup(rs), compute)
    ensures Acceptable(rs, compute)
  {
    forall i | 0 <= i < |rs| ensures (rs[i].inZone || Hidden(rs, i)) && rs[i].host in compute {
      var f, k := KeptIndex(rs, i);
      assert rs[f].inZone && SameKey(rs[f], rs[i]);
    }
    forall i, j | 0 <= i < |rs| && 0 <= j < |rs| && rs[i].rel == rs[j].rel ensures rs[i].host == rs[j].host {
      var f, k := KeptIndex(rs, i);
      var g, l := KeptIndex(rs, j);
      assert Dedup(rs)[k].rel == Dedup(rs)[l].rel;
    }
  }

  lemma AcceptableIsCreatable(rs: seq<Record>, compute: set<string>)
    requires Acceptable(rs, compute)
    ensures CanCreate(Dedup(rs), compute)
  {
    var kept := Dedup(rs);
    forall k | 0 <= k < |kept| ensures kept[k].inZone && kept[k].host in compute {
      var i := KeptIsFirst(rs, k);
    }
    forall k, l | 0 <= k < l < |kept| ensures kept[k].rel != kept[l].rel {
      var i := KeptIsFirst(rs, k);
      var j := KeptIsFirst(rs, l);
      KeysDistinct(rs, k, l);
    }
  }

  /** This record was created and resolves to the name. */
  predicate Lands(created: map<string, string>, rel: string, name: string, zone: string) {
    rel in created && Absolute(rel, zone) == name
  }

  /** A record lands on the name exactly when the name is in the zone and not its literal "@"; then it is the only one,
      and it points at the host. */
  ghost predicate ServedIff(created: map<string, string>, name: string, host: string, zone: string) {
    && ((exists rel :: Lands(created, rel, name, zone)) <==> InZone(name, zone) && name != "@." + zone)
    && forall rel | Lands(created, rel, name, zone) :: rel == ZoneRelative(name, zone) && created[rel] == host
  }

  /** After a successful creation a rendered server name has a record landing on it exactly when it is in the zone and
      is not the zone's literal "@"; then it is one record, pointing at the rendering host. */
  method DeployDns(res: Resources, zone: string, compute: set<string>) returns (created: map<string, string>, ok: bool)
    ensures ok <==> Acceptable(Records(Derivations(res), zone), compute)
    ensures ok ==> forall host, name | ServerName(ConfigOn(res, host), name) :: ServedIff(created, name, host, zone)
    ensures ok ==> forall rel | rel in created ::
      exists d :: d in Derivations(res) && InZone(d.fqdn, zone) && ZoneRelative(d.fqdn, zone) == rel
  {
    var ds := Derivations(res);
    var rs := Records(ds, zone);
    var kept := DerivedRecords(rs);
    created, ok := CreateDnsRecords(kept, compute);
    AcceptedIff(rs, compute);
    if ok {
      forall host, name | ServerName(ConfigOn(res, host), name)
        ensures ServedIff(created, name, host, zone)
      {
        ServerNamesAreDerived(res, host, name);
        NameLands(ds, zone, created, Derivation(name, host));
      }
      forall rel | rel in created
        ensures exists d :: d in ds && InZone(d.fqdn, zone) && ZoneRelative(d.fqdn, zone) == rel
      {
        var d := CreatedIsDerived(ds, zone, created, compute, rel);
      }
    }
  }

  lemma NameLands(ds: seq<Derivation>, zone: string, created: map<string, string>, d: Derivation)
    requires d in ds && CreatedIs(created, Dedup(Records(ds, zone)))
    ensures ServedIff(created, d.fqdn, d.host, zone)
  {
    RecordCreated(ds, zone, created, d);
    forall rel | Lands(created, rel, d.fqdn, zone)
      ensures rel == ZoneRelative(d.fqdn, zone) && InZone(d.fqdn, zone) && d.fqdn != "@." + zone
    {
      LandsOnlyHere(rel, d.fqdn, zone);
    }
    LandsOnlyHere(ZoneRelative(d.fqdn, zone), d.fqdn, zone);
    if InZone(d.fqdn, zone) && d.fqdn != "@." + zone {
      assert Lands(created, ZoneRelative(d.fqdn, zone), d.fqdn, zone);
    }
  }

  lemma RecordCreated(ds: seq<Derivation>, zone: string, created: map<string, string>, d: Derivation)
    requires d in ds && CreatedIs(created, Dedup(Records(ds, zone)))
    ensures ZoneRelative(d.fqdn, zone) in created && created[ZoneRelative(d.fqdn, zone)] == d.host
  {
    var i :| 0 <= i < |ds| && ds[i] == d;
    RecordAt(ds, zone, i);
    var f, k := KeptIndex(Records(ds, zone), i);
  }

  lemma CreatedIsDerived(ds: seq<Derivation>, zone: string, created: map<string, string>, compute: set<string>,
                         rel: string)
    returns (d: Derivation)
    requires CreatedIs(created, Dedup(Records(ds, zone))) && CanCreate(Dedup(Records(ds, zone)), compute)
          && rel in created
    ensures d in ds && InZone(d.fqdn, zone) && ZoneRelative(d.fqdn, zone) == rel
  {
    var k :| 0 <= k < |Dedup(Records(ds, zone))| && Dedup(Records(ds, zone))[k].rel == rel;
    var i := KeptIsFirst(Records(ds, zone), k);
    RecordAt(ds, zone, i);
    d := ds[i];
  }

  // ---- Names that differ and still coincide ----

  /** The resource name of a record: dots become dashes, the zone itself is called apex. */
  function ResourceName(rel: string): string { if rel == "@" then APEX else Dashes(rel) }

  const APEX := "apex"

  function Dashes(s: string): (r: string)
    ensures |r| == |s| && forall i | 0 <= i < |s| :: r[i] == if s[i] == '.' then '-' else s[i]
  {
    if s == "" then "" else [if s[0] == '.' then '-' else s[0]] + Dashes(s[1..])
  }

  predicate SameUpToDots(a: string, b: string) {
    |a| == |b| && forall i | 0 <= i < |a| :: a[i] == b[i] || {a[i], b[i]} == {'.', '-'}
  }

  /** Two record names get one resource name exactly when a dot of one is a dash of the other, or one is the zone itself
      and the other is called apex. */
  lemma ResourceNameEqualIff(a: string, b: string)
    ensures ResourceName(a) == ResourceName(b) <==>
      a == b || (a != "@" && b != "@" && SameUpToDots(a, b)) || (a == "@" && b == APEX) || (a == APEX && b == "@")
  {
    DashesEqualIff(a, b);
    IsApexIff(a);
    IsApexIff(b);
  }

  lemma DashesEqualIff(a: string, b: string)
    ensures Dashes(a) == Dashes(b) <==> SameUpToDots(a, b)
  {
    if Dashes(a) == Dashes(b) {
      forall i | 0 <= i < |a| ensures a[i] == b[i] || {a[i], b[i]} == {'.', '-'} {
        assert Dashes(a)[i] == Dashes(b)[i];
      }
    }
    if SameUpToDots(a, b) {
      forall i | 0 <= i < |a| ensures Dashes(a)[i] == Dashes(b)[i] {
        if a[i] != b[i] { assert a[i] in {'.', '-'} && b[i] in {'.', '-'}; }
      }
    }
  }

  lemma IsApexIff(s: string)
    ensures Dashes(s) == APEX <==> s == APEX
  {
    if Dashes(s) == APEX {
      forall i | 0 <= i < |s| ensures s[i] == APEX[i] { assert Dashes(s)[i] == APEX[i] != '-'; }
    }
    if s == APEX { forall i | 0 <= i < |s| ensures Dashes(s)[i] == APEX[i] { assert APEX[i] != '.'; } }
  }

  /** Two created records have one name, under some reading of names. */
  ghost predicate OneNameTwice(created: map<string, string>, reading: string -> string) {
    exists a, b :: a in created && b in created && a != b && reading(a) == reading(b)
  }

  /** The resource names of the created records are distinct exactly when no two records differ in dots against dashes
      alone and the zone itself does not meet a record called apex. */
  lemma ResourceNamesDistinctIff(created: map<string, string>)
    ensures !OneNameTwice(created, ResourceName) <==>
      && !("@" in created && APEX in created)
      && forall a, b | a in created && b in created && a != "@" && b != "@" && SameUpToDots(a, b) :: a == b
  {
    if a, b :| a in created && b in created && a != b && ResourceName(a) == ResourceName(b) {
      ResourceNameEqualIff(a, b);
    }
    if a, b :| a in created && b in created && a != "@" && b != "@" && SameUpToDots(a, b) && a != b {
      ResourceNameEqualIff(a, b);
    }
    if "@" in created && APEX in created {
      ResourceNameEqualIff("@", APEX);
      assert "@" != APEX;
    }
  }

  /** DNS, which ignores case, sees as many names as were created exactly when none differs from another in case
      alone. */
  lemma FoldedNamesDistinctIff(created: map<string, string>)
    ensures !OneNameTwice(created, Fold) <==>
      forall a, b | a in created && b in created && SameUpToCase(a, b) :: a == b
  {
    if a, b :| a in created && b in created && a != b && Fold(a) == Fold(b) { FoldEqualIff(a, b); }
    if a, b :| a in created && b in created && SameUpToCase(a, b) && a != b { FoldEqualIff(a, b); }
  }

  // ---- Names that slip through ----

  /** A name of the zone. */
  function Under(rel: string, zone: string): string { rel + "." + zone }

  /** One service behind one ingress, with two vanity names. */
  function Shop(zone: string, first: string, second: string): Resources {
    var route := Route(TlsTermination, 443, 8080, [first, second]);
    var svc := Service("shop", "h", "edge", [route], 0, false, false, Under("shop.svc", zone));
    Resources([], [svc], [], [], [Ingress("edge", "h", 81)], [], map["h" := "h-01"], Under("edge.ing", zone))
  }

  lemma ShopDerivations(zone: string, first: string, second: string)
    ensures Derivations(Shop(zone, first, second)) ==
      [Derivation(Under("shop.svc", zone), "h-01"), Derivation(first, "h-01"), Derivation(second, "h-01"),
       Derivation(Under("edge.ing", zone), "h-01")]
  {
    var res := Shop(zone, first, second);
    var svc := res.services[0];
    ShopResolves(res, svc);
    ShopDerived(res, IngressService(svc, "h-01", "h-01"));
    ShopServices(IngressService(svc, "h-01", "h-01"), svc.routes[0], first, second);
  }

  /** With one service and one ingress, the names are the service's and the ingress's. */
  lemma ShopDerived(res: Resources, s: IngressService)
    requires Services(res) == [s] && res.computes == [] && res.apps == [] && res.gateways == [] && |res.ingresses| == 1
    requires res.ingresses[0].host in res.canonical
    ensures Derivations(res) == OfServices([s]) + [Derivation(res.ingressFqdn, res.canonical[res.ingresses[0].host])]
  {
    assert OfIngresses(res, res.ingresses) == [Derivation(res.ingressFqdn, res.canonical[res.ingresses[0].host])] by {
      assert res.ingresses[1..] == [];
    }
  }

  lemma ShopServerName(zone: string, first: string, second: string)
    ensures ServerName(ConfigOn(Shop(zone, first, second), "h-01"), second)
  {
    var res := Shop(zone, first, second);
    var svc := res.services[0];
    ShopResolves(res, svc);
    ShopRenders(res, IngressService(svc, "h-01", "h-01"), svc.routes[0], first, second);
  }

  lemma ShopResolves(res: Resources, svc: Service)
    requires res.services == [svc] && res.ingresses == [Ingress("edge", "h", 81)] && res.canonical == map["h" := "h-01"]
    requires svc.host == "h" && svc.ingress == "edge" && svc.routes != []
    ensures Services(res) == [IngressService(svc, "h-01", "h-01")]
  {
    assert IngressHost(res.ingresses, res.canonical, "edge") == Some("h-01");
    calc {
      Services(res);
      [IngressService(svc, "h-01", "h-01")] + ResolveServices(res, [svc][1..]);
      { assert [svc][1..] == []; }
      [IngressService(svc, "h-01", "h-01")];
    }
  }

  lemma ShopRenders(res: Resources, s: IngressService, rt: Route, first: string, second: string)
    requires Services(res) == [s] && s.ingHost == "h-01" && s.svc.routes == [rt]
    requires rt.kind == TlsTermination && rt.vanity == [first, second]
    ensures ServerName(ConfigOn(res, "h-01"), second)
  {
    RoutesOnMember(Services(res), "h-01");
    assert s in Services(res) && rt in s.svc.routes;
    assert RouteOf(s, rt) in ConfigOn(res, "h-01").routes;
    assert RouteOf(s, rt).fqdns[2] == second;
  }

  lemma ShopServices(s: IngressService, rt: Route, first: string, second: string)
    requires s.svc.routes == [rt] && rt.vanity == [first, second] && s.svc.healthPort == 0
    ensures OfServices([s]) ==
      [Derivation(s.svc.fqdn, s.ingHost), Derivation(first, s.ingHost), Derivation(second, s.ingHost)]
  {
    OneRoute(s, rt);
    assert IngressFqdns(s.svc, rt) == [s.svc.fqdn, first, second];
    NamesInOrder(s.svc.fqdn, first, second, s.ingHost);
  }

  lemma OneRoute(s: IngressService, rt: Route)
    requires s.svc.routes == [rt] && s.svc.healthPort == 0
    ensures OfServices([s]) == NamesAt(IngressFqdns(s.svc, rt), s.ingHost)
  {
    assert s.svc.routes[1..] == [] && [s][1..] == [];
    assert OfRoutes(s, s.svc.routes[1..]) == [];
    assert OfServices([s][1..]) == [];
  }

  lemma NamesInOrder(a: string, b: string, c: string, host: string)
    ensures NamesAt([a, b, c], host) == [Derivation(a, host), Derivation(b, host), Derivation(c, host)]
  {
    assert [a, b, c][1..] == [b, c] && [b, c][1..] == [c] && [c][1..] == [];
    assert NamesAt([c], host) == [Derivation(c, host)];
    assert NamesAt([b, c], host) == [Derivation(b, host), Derivation(c, host)];
  }

  lemma SuffixNames(rel: string, zone: string)
    requires rel != "@"
    ensures InZone(Under(rel, zone), zone) && ZoneRelative(Under(rel, zone), zone) == rel
  {
    RelativeOfAbsolute(rel, zone);
  }

  lemma ShopNames(zone: string)
    ensures InZone(Under("shop.svc", zone), zone) && ZoneRelative(Under("shop.svc", zone), zone) == "shop.svc"
    ensures InZone(Under("edge.ing", zone), zone) && ZoneRelative(Under("edge.ing", zone), zone) == "edge.ing"
  {
    SuffixNames("shop.svc", zone);
    SuffixNames("edge.ing", zone);
  }

  lemma RecordsOfFour(a: Derivation, b: Derivation, c: Derivation, d: Derivation, zone: string)
    ensures Records([a, b, c, d], zone) == [RecordOf(a, zone), RecordOf(b, zone), RecordOf(c, zone), RecordOf(d, zone)]
  {
    var ds := [a, b, c, d];
    RecordAt(ds, zone, 0);
    RecordAt(ds, zone, 1);
    RecordAt(ds, zone, 2);
    RecordAt(ds, zone, 3);
  }

  lemma ShopRecords(zone: string, first: string, second: string)
    ensures Records(Derivations(Shop(zone, first, second)), zone) ==
      [Record("shop.svc", "h-01", true), Record(ZoneRelative(first, zone), "h-01", InZone(first, zone)),
       Record(ZoneRelative(second, zone), "h-01", InZone(second, zone)), Record("edge.ing", "h-01", true)]
  {
    ShopDerivations(zone, first, second);
    ShopNames(zone);
    RecordsOfFour(Derivation(Under("shop.svc", zone), "h-01"), Derivation(first, "h-01"), Derivation(second, "h-01"),
                  Derivation(Under("edge.ing", zone), "h-01"), zone);
  }

  /** All on one host: accepted if the second is in the zone or hidden behind the first. */
  lemma FourAreAccepted(a: string, b: string, c: string, d: string, host: string, inZone: bool)
    requires inZone || b == c
    ensures Acceptable([Record(a, host, true), Record(b, host, true), Record(c, host, inZone), Record(d, host, true)],
                       {host})
  {
    var rs := [Record(a, host, true), Record(b, host, true), Record(c, host, inZone), Record(d, host, true)];
    if !inZone {
      assert rs[1].inZone && SameKey(rs[1], rs[2]);
      assert Hidden(rs, 2);
    }
  }

  lemma ShopIsAccepted(zone: string, first: string, second: string)
    requires InZone(first, zone) && (InZone(second, zone) || ZoneRelative(second, zone) == ZoneRelative(first, zone))
    ensures Acceptable(Records(Derivations(Shop(zone, first, second)), zone), {"h-01"})
  {
    ShopRecords(zone, first, second);
    FourAreAccepted("shop.svc", ZoneRelative(first, zone), ZoneRelative(second, zone), "edge.ing", "h-01",
                    InZone(second, zone));
  }

  ghost predicate CreatedFor(created: map<string, string>, zone: string, first: string, second: string) {
    CreatedIs(created, Dedup(Records(Derivations(Shop(zone, first, second)), zone)))
  }

  /** An in-zone vanity name and then an out-of-zone one of the same relative form: the deploy accepts them, renders the
      outside name, and creates no record that lands on it. */
  lemma HiddenNameSlipsThrough(zone: string, outside: string)
    requires outside != "@" && !InZone(outside, zone)
    ensures Acceptable(Records(Derivations(Shop(zone, Under(outside, zone), outside)), zone), {"h-01"})
    ensures ServerName(ConfigOn(Shop(zone, Under(outside, zone), outside), "h-01"), outside)
    ensures forall created, rel | CreatedFor(created, zone, Under(outside, zone), outside) ::
      !Lands(created, rel, outside, zone)
  {
    var inside := Under(outside, zone);
    SuffixNames(outside, zone);
    OutsideStays(outside, zone);
    ShopIsAccepted(zone, inside, outside);
    ShopServerName(zone, inside, outside);
    forall created, rel | CreatedFor(created, zone, inside, outside) ensures !Lands(created, rel, outside, zone) {
      LandsOnlyHere(rel, outside, zone);
    }
  }

  lemma OutsideStays(fqdn: string, zone: string)
    requires !InZone(fqdn, zone)
    ensures ZoneRelative(fqdn, zone) == fqdn
  {
  }

  /** Two vanity names in the zone: the deploy accepts them whatever they are, and creates a record for each. */
  lemma ShopCreates(zone: string, a: string, b: string, created: map<string, string>)
    requires a != "@" && b != "@"
    ensures Acceptable(Records(Derivations(Shop(zone, Under(a, zone), Under(b, zone))), zone), {"h-01"})
    ensures CreatedFor(created, zone, Under(a, zone), Under(b, zone)) ==> a in created && b in created
  {
    var first, second := Under(a, zone), Under(b, zone);
    SuffixNames(a, zone);
    SuffixNames(b, zone);
    ShopIsAccepted(zone, first, second);
    ShopDerivations(zone, first, second);
    if CreatedFor(created, zone, first, second) {
      var ds := Derivations(Shop(zone, first, second));
      assert ds[1] == Derivation(first, "h-01") && ds[2] == Derivation(second, "h-01");
      RecordCreated(ds, zone, created, ds[1]);
      RecordCreated(ds, zone, created, ds[2]);
    }
  }

  /** Two record names alike but for dots and dashes are accepted and are one resource to the engine; two alike but for
      case are accepted and are one name to DNS. */
  lemma TwinsSlipThrough(zone: string, a: string, b: string)
    requires a != b && a != "@" && b != "@"
    ensures Acceptable(Records(Derivations(Shop(zone, Under(a, zone), Under(b, zone))), zone), {"h-01"})
    ensures SameUpToDots(a, b) ==>
      forall created | CreatedFor(created, zone, Under(a, zone), Under(b, zone)) :: OneNameTwice(created, ResourceName)
    ensures SameUpToCase(a, b) ==>
      forall created | CreatedFor(created, zone, Under(a, zone), Under(b, zone)) :: OneNameTwice(created, Fold)
  {
    ShopCreates(zone, a, b, map[]);
    forall created | CreatedFor(created, zone, Under(a, zone), Under(b, zone))
      ensures SameUpToDots(a, b) ==> OneNameTwice(created, ResourceName)
      ensures SameUpToCase(a, b) ==> OneNameTwice(created, Fold)
    {
      TwinsCreated(zone, a, b, created);
    }
  }

  lemma TwinsCreated(zone: string, a: string, b: string, created: map<string, string>)
    requires a != b && a != "@" && b != "@" && CreatedFor(created, zone, Under(a, zone), Under(b, zone))
    ensures SameUpToDots(a, b) ==> OneNameTwice(created, ResourceName)
    ensures SameUpToCase(a, b) ==> OneNameTwice(created, Fold)
  {
    ShopCreates(zone, a, b, created);
    ResourceNameEqualIff(a, b);
    FoldEqualIff(a, b);
  }

  /** Names the three lemmas above apply to. */
  lemma NamesThatSlip()
    ensures "shop.net" != "@" && !InZone("shop.net", "base.org")
    ensures "a.b" != "a-b" && SameUpToDots("a.b", "a-b")
    ensures "API" != "api" && SameUpToCase("API", "api")
  {
    assert |"shop.net"| < |"." + "base.org"| && "shop.net"[0] != "base.org"[0];
    assert "a.b"[1] != "a-b"[1] && "API"[0] != "api"[0];
  }
}
