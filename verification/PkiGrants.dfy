/** The two halves of a pki grant: what the descriptor names and what the blob carries (program/pkigrant.go,
    internal/grant/pki.go). */
module PkiGrants {
  import opened Common
  import opened Template

  const GLOBAL := "global"
  const GLOBAL_PREFIX := "global/"
  const CERT := "CERT"
  const KEY := "KEY"

  datatype Permission = ReadOnly | ReadWrite | Unknown(token: string)

  datatype Material = Material(cert: string, key: string, scope: string)

  /** `name` is what follows `pki/` in the grant's resource; `outputs` maps an env var to its template. */
  datatype PkiGrant = PkiGrant(name: string, permission: Permission, outputs: map<string, string>)

  predicate HasPrefix(s: string, prefix: string) { prefix <= s }

  function Target(name: string): string { if HasPrefix(name, GLOBAL_PREFIX) then name[|GLOBAL_PREFIX|..] else name }

  function GrantScope(name: string, region: string): string {
    if HasPrefix(name, GLOBAL_PREFIX) || region == GLOBAL then GLOBAL else region
  }

  function FieldNames(p: Permission): set<string> {
    match p case ReadOnly => {CERT} case ReadWrite => {CERT, KEY} case Unknown(_) => {}
  }

  function Pem(m: Material, field: string): string {
    if field == CERT then m.cert else if field == KEY then m.key else ""
  }

  function Lower(c: char): char { if 'A' <= c <= 'Z' then c - 'A' + 'a' else c }

  function ToLower(s: string): (r: string)
    ensures |r| == |s|
  {
    if s == "" then "" else [Lower(s[0])] + ToLower(s[1..])
  }

  function FileKey(target: string, field: string): string { "pki/" + target + "/" + ToLower(field) + ".pem" }

  lemma LowerNames()
    ensures ToLower(CERT) == "cert" && ToLower(KEY) == "key"
  {
    assert CERT[1..] == "ERT" && "ERT"[1..] == "RT" && "RT"[1..] == "T" && "T"[1..] == "";
    assert KEY[1..] == "EY" && "EY"[1..] == "Y" && "Y"[1..] == "";
    assert ToLower("T") == "t" && ToLower("RT") == "rt" && ToLower("ERT") == "ert";
    assert ToLower("Y") == "y" && ToLower("EY") == "ey";
  }

  /** The key tells the PKI and the field apart, so no two grants overwrite each other's material. */
  lemma FileKeyInjective(t1: string, f1: string, t2: string, f2: string)
    requires f1 in {CERT, KEY} && f2 in {CERT, KEY} && FileKey(t1, f1) == FileKey(t2, f2)
    ensures t1 == t2 && f1 == f2
  {
    LowerNames();
    var k1, k2 := FileKey(t1, f1), FileKey(t2, f2);
    FileKeyShape(t1, f1);
    FileKeyShape(t2, f2);
    assert t1 == k1[4..|k1| - |f1| - 5] && t2 == k2[4..|k2| - |f2| - 5];
  }

  lemma FileKeyShape(t: string, f: string)
    requires f in {CERT, KEY}
    ensures var k := FileKey(t, f);
      && |k| == |t| + |f| + 9 && k[..4] == "pki/" && k[4..|k| - |f| - 5] == t
      && k[|k| - 8] == (if f == CERT then 'c' else '/')
  {
    LowerNames();
    var k := FileKey(t, f);
    assert k == "pki/" + t + ("/" + ToLower(f) + ".pem");
  }

  // ---- Resolution ----

  predicate Available(store: map<string, Material>, region: string, g: PkiGrant) {
    && Target(g.name) in store && store[Target(g.name)].scope == GrantScope(g.name, region)
    && FieldNames(g.permission) != {} && forall f | f in FieldNames(g.permission) :: Pem(store[Target(g.name)], f) != ""
  }

  /** What a grant needs to be materialized: its PKI, in its scope, publishing every field its outputs name. */
  predicate GrantOk(store: map<string, Material>, region: string, g: PkiGrant) {
    Available(store, region, g) && forall v | v in g.outputs :: OutputOk(g, v)
  }

  predicate OutputOk(g: PkiGrant, v: string)
    requires v in g.outputs
  {
    LoneField(g.outputs[v]).Some? && LoneField(g.outputs[v]).value in FieldNames(g.permission)
  }

  /** The keys of some outputs, in order. */
  function KeysTo(g: PkiGrant, vars: seq<string>, n: nat): map<string, string>
    requires n <= |vars| && forall v | v in vars :: v in g.outputs
  {
    if n == 0 then map[] else KeysTo(g, vars, n - 1)[vars[n - 1] := KeyOf(g, vars[n - 1])]
  }

  /** The descriptor's entries for one grant. */
  function Keys(g: PkiGrant): map<string, string> { map v | v in g.outputs :: KeyOf(g, v) }

  lemma {:induction false} KeysAre(g: PkiGrant, vars: seq<string>, n: nat, v: string)
    requires n <= |vars| && forall w | w in vars :: w in g.outputs
    ensures v in KeysTo(g, vars, n) <==> v in vars[..n]
    ensures v in vars[..n] ==> KeysTo(g, vars, n)[v] == KeyOf(g, v)
    decreases n
  {
    if n > 0 {
      KeysAre(g, vars, n - 1, v);
      assert vars[..n] == vars[..n - 1] + [vars[n - 1]];
    }
  }

  lemma KeysInOrder(g: PkiGrant)
    ensures KeysTo(g, Sorted(g.outputs.Keys), |Sorted(g.outputs.Keys)|) == Keys(g)
  {
    var vars := Sorted(g.outputs.Keys);
    forall v ensures v in KeysTo(g, vars, |vars|) <==> v in g.outputs
             ensures v in g.outputs ==> KeysTo(g, vars, |vars|)[v] == KeyOf(g, v)
    {
      KeysAre(g, vars, |vars|, v);
      assert vars[..|vars|] == vars;
    }
  }

  predicate OutputsOk(g: PkiGrant, vars: seq<string>, n: nat)
    requires n <= |vars| && forall v | v in vars :: v in g.outputs
  {
    n == 0 || (OutputsOk(g, vars, n - 1) && OutputOk(g, vars[n - 1]))
  }

  lemma {:induction false} OutputsOkMeans(g: PkiGrant, vars: seq<string>, n: nat, i: nat)
    requires i < n <= |vars| && (forall v | v in vars :: v in g.outputs) && OutputsOk(g, vars, n)
    ensures OutputOk(g, vars[i])
    decreases n
  {
    if i < n - 1 { OutputsOkMeans(g, vars, n - 1, i); }
  }

  /** Every grant of a list can be materialized. */
  predicate AllOk(store: map<string, Material>, region: string, grants: seq<PkiGrant>, n: nat)
    requires n <= |grants|
  {
    n == 0 || (AllOk(store, region, grants, n - 1) && GrantOk(store, region, grants[n - 1]))
  }

  lemma {:induction false} AllOkMeans(store: map<string, Material>, region: string, grants: seq<PkiGrant>, n: nat,
                                      i: nat)
    requires i < n <= |grants| && AllOk(store, region, grants, n)
    ensures GrantOk(store, region, grants[i])
    decreases n
  {
    if i < n - 1 { AllOkMeans(store, region, grants, n - 1, i); }
  }

  function KeyOf(g: PkiGrant, v: string): string
    requires v in g.outputs
  {
    FileKey(Target(g.name), match LoneField(g.outputs[v]) case Some(f) => f case None => "")
  }

  /** The descriptor's half; an output of a later grant replaces an earlier namesake. */
  function DescriptorTo(grants: seq<PkiGrant>, n: nat): map<string, string>
    requires n <= |grants|
  {
    if n == 0 then map[] else DescriptorTo(grants, n - 1) + Keys(grants[n - 1])
  }

  function DescriptorFiles(grants: seq<PkiGrant>): map<string, string> { DescriptorTo(grants, |grants|) }

  // ---- The blob's half ----

  /** The field an output names. */
  function FieldOf(g: PkiGrant, v: string): string
    requires v in g.outputs
  {
    match LoneField(g.outputs[v]) case Some(f) => f case None => ""
  }

  /** The material of some outputs, added to what is there. */
  function FilesTo(m: Material, g: PkiGrant, vars: seq<string>, n: nat, blob: map<string, string>): map<string, string>
    requires n <= |vars| && forall v | v in vars :: v in g.outputs
  {
    if n == 0 then blob else FilesTo(m, g, vars, n - 1, blob)[KeyOf(g, vars[n - 1]) := Pem(m, FieldOf(g, vars[n - 1]))]
  }

  function FilesWith(store: map<string, Material>, g: PkiGrant, blob: map<string, string>): map<string, string> {
    if Target(g.name) in store
    then FilesTo(store[Target(g.name)], g, Sorted(g.outputs.Keys), |Sorted(g.outputs.Keys)|, blob)
    else blob
  }

  function BlobTo(store: map<string, Material>, grants: seq<PkiGrant>, n: nat): map<string, string>
    requires n <= |grants|
  {
    if n == 0 then map[] else FilesWith(store, grants[n - 1], BlobTo(store, grants, n - 1))
  }

  /** Everything the grants deliver. */
  function BlobFiles(store: map<string, Material>, grants: seq<PkiGrant>): map<string, string> {
    BlobTo(store, grants, |grants|)
  }

  /** The first `n` outputs name this key. */
  ghost predicate KeyAmong(g: PkiGrant, vars: seq<string>, n: nat, k: string)
    requires n <= |vars| && forall v | v in vars :: v in g.outputs
  {
    n > 0 && (KeyAmong(g, vars, n - 1, k) || k == KeyOf(g, vars[n - 1]))
  }

  lemma {:induction false} KeyAmongIs(g: PkiGrant, vars: seq<string>, n: nat, k: string)
    requires n <= |vars| && forall v | v in vars :: v in g.outputs
    ensures KeyAmong(g, vars, n, k) <==> exists i :: 0 <= i < n && KeyOf(g, vars[i]) == k
    decreases n
  {
    if n > 0 { KeyAmongIs(g, vars, n - 1, k); }
  }

  lemma {:induction false} FilesToHolds(m: Material, g: PkiGrant, vars: seq<string>, n: nat, blob: map<string, string>,
                                        k: string)
    requires n <= |vars| && forall v | v in vars :: v in g.outputs
    ensures k in FilesTo(m, g, vars, n, blob) <==> k in blob || KeyAmong(g, vars, n, k)
    decreases n
  {
    if n > 0 { FilesToHolds(m, g, vars, n - 1, blob, k); }
  }

  /** Some output of the grant names this key. */
  ghost predicate Names(g: PkiGrant, k: string) { exists v :: v in g.outputs && KeyOf(g, v) == k }

  lemma FilesWithHolds(store: map<string, Material>, g: PkiGrant, blob: map<string, string>, k: string)
    requires Target(g.name) in store
    ensures k in FilesWith(store, g, blob) <==> k in blob || Names(g, k)
  {
    var vars := Sorted(g.outputs.Keys);
    FilesToHolds(store[Target(g.name)], g, vars, |vars|, blob, k);
    KeyAmongIs(g, vars, |vars|, k);
    NamedAmong(g, vars, k);
  }

  lemma NamedAmong(g: PkiGrant, vars: seq<string>, k: string)
    requires forall v :: v in vars <==> v in g.outputs
    ensures Names(g, k) <==> exists i :: 0 <= i < |vars| && KeyOf(g, vars[i]) == k
  {
    if v :| v in g.outputs && KeyOf(g, v) == k {
      assert v in vars;
      var i :| 0 <= i < |vars| && vars[i] == v;
      assert KeyOf(g, vars[i]) == k;
    }
    if i :| 0 <= i < |vars| && KeyOf(g, vars[i]) == k { assert vars[i] in vars; }
  }

  lemma {:induction false} BlobToHolds(store: map<string, Material>, region: string, grants: seq<PkiGrant>, n: nat,
                                       k: string)
    requires n <= |grants| && AllOk(store, region, grants, n)
    ensures k in BlobTo(store, grants, n) <==> exists i :: 0 <= i < n && Names(grants[i], k)
    decreases n
  {
    if n > 0 {
      BlobToHolds(store, region, grants, n - 1, k);
      FilesWithHolds(store, grants[n - 1], BlobTo(store, grants, n - 1), k);
    }
  }

  // ---- What is delivered is the store's own material ----

  ghost predicate IsMaterial(store: map<string, Material>, key: string, pem: string) {
    exists t, f :: t in store && f in {CERT, KEY} && key == FileKey(t, f) && pem == Pem(store[t], f) && pem != ""
  }

  ghost predicate Faithful(store: map<string, Material>, blob: map<string, string>) {
    forall k | k in blob :: IsMaterial(store, k, blob[k])
  }

  lemma FaithfulAdd(store: map<string, Material>, blob: map<string, string>, t: string, f: string)
    requires Faithful(store, blob) && t in store && f in {CERT, KEY} && Pem(store[t], f) != ""
    ensures Faithful(store, blob[FileKey(t, f) := Pem(store[t], f)])
  {
    assert IsMaterial(store, FileKey(t, f), Pem(store[t], f));
  }

  lemma {:induction false} FilesAreFaithful(store: map<string, Material>, region: string, g: PkiGrant,
                                            vars: seq<string>, n: nat, blob: map<string, string>)
    requires n <= |vars| && (forall v | v in vars :: v in g.outputs) && GrantOk(store, region, g)
          && Faithful(store, blob)
    ensures Faithful(store, FilesTo(store[Target(g.name)], g, vars, n, blob))
    decreases n
  {
    if n > 0 {
      FilesAreFaithful(store, region, g, vars, n - 1, blob);
      assert vars[n - 1] in vars && OutputOk(g, vars[n - 1]);
      FaithfulAdd(store, FilesTo(store[Target(g.name)], g, vars, n - 1, blob), Target(g.name), FieldOf(g, vars[n - 1]));
    }
  }

  /** Everything delivered is the certificate or the key of a stored PKI, under that PKI's key, and none is empty. */
  lemma {:induction false} BlobIsFaithful(store: map<string, Material>, region: string, grants: seq<PkiGrant>, n: nat)
    requires n <= |grants| && AllOk(store, region, grants, n)
    ensures Faithful(store, BlobTo(store, grants, n))
    decreases n
  {
    if n > 0 {
      BlobIsFaithful(store, region, grants, n - 1);
      var g := grants[n - 1];
      FilesAreFaithful(store, region, g, Sorted(g.outputs.Keys), |Sorted(g.outputs.Keys)|,
                       BlobTo(store, grants, n - 1));
    }
  }

  // ---- The loops ----

  /** One output: the key both halves share, and the material behind it. */
  method ResolveOutput(m: Material, g: PkiGrant, v: string, blob0: map<string, string>)
    returns (key: string, blob: map<string, string>, ok: bool)
    requires v in g.outputs
    ensures ok <==> OutputOk(g, v)
    ensures ok ==> key == KeyOf(g, v) && blob == blob0[key := Pem(m, FieldOf(g, v))]
  {
    var field := FileField(g.outputs[v]);
    if field.None? || field.value !in FieldNames(g.permission) {
      return "", blob0, false;
    }
    key := FileKey(Target(g.name), field.value);
    blob := blob0[key := Pem(m, field.value)];
    ok := true;
  }

  /** Outputs one by one, in name order. */
  method ResolveOutputs(m: Material, g: PkiGrant, vars: seq<string>, blob0: map<string, string>)
    returns (keys: map<string, string>, blob: map<string, string>, ok: bool)
    requires forall v | v in vars :: v in g.outputs
    ensures ok ==>
      OutputsOk(g, vars, |vars|) && keys == KeysTo(g, vars, |vars|) && blob == FilesTo(m, g, vars, |vars|, blob0)
    ensures !ok ==> exists v :: v in vars && !OutputOk(g, v)
  {
    keys, blob := map[], blob0;
    for i := 0 to |vars|
      invariant OutputsOk(g, vars, i) && keys == KeysTo(g, vars, i) && blob == FilesTo(m, g, vars, i, blob0)
    {
      assert vars[i] in vars;
      var key;
      key, blob, ok := ResolveOutput(m, g, vars[i], blob);
      if !ok { return; }
      keys := keys[vars[i] := key];
    }
    ok := true;
  }

  lemma AllOutputsOk(g: PkiGrant, vars: seq<string>)
    requires vars == Sorted(g.outputs.Keys) && OutputsOk(g, vars, |vars|)
    ensures forall v | v in g.outputs :: OutputOk(g, v)
  {
    forall v | v in g.outputs ensures OutputOk(g, v) {
      assert v in vars;
      var i :| 0 <= i < |vars| && vars[i] == v;
      OutputsOkMeans(g, vars, |vars|, i);
    }
  }

  /** Every output of one grant. */
  method ResolveOne(store: map<string, Material>, region: string, g: PkiGrant, blob0: map<string, string>)
    returns (keys: map<string, string>, blob: map<string, string>, ok: bool)
    ensures ok <==> GrantOk(store, region, g)
    ensures ok ==> keys == Keys(g) && blob == FilesWith(store, g, blob0)
  {
    if !Available(store, region, g) {
      return map[], blob0, false;
    }
    var vars := Sorted(g.outputs.Keys);
    keys, blob, ok := ResolveOutputs(store[Target(g.name)], g, vars, blob0);
    if ok { AllOutputsOk(g, vars); }
    KeysInOrder(g);
  }

  lemma OneRefusalRefusesAll(store: map<string, Material>, region: string, grants: seq<PkiGrant>, i: nat)
    requires i < |grants| && !GrantOk(store, region, grants[i])
    ensures !AllOk(store, region, grants, |grants|)
  {
    if AllOk(store, region, grants, |grants|) { AllOkMeans(store, region, grants, |grants|, i); }
  }

  /** Materializes every pki grant of a service, or refuses them all. */
  method ResolvePkiGrants(store: map<string, Material>, region: string, grants: seq<PkiGrant>)
    returns (descriptor: map<string, string>, blob: map<string, string>, ok: bool)
    ensures ok <==> AllOk(store, region, grants, |grants|)
    ensures ok ==> descriptor == DescriptorFiles(grants) && blob == BlobFiles(store, grants)
  {
    descriptor, blob := map[], map[];
    for i := 0 to |grants|
      invariant AllOk(store, region, grants, i)
      invariant descriptor == DescriptorTo(grants, i) && blob == BlobTo(store, grants, i)
    {
      var keys;
      keys, blob, ok := ResolveOne(store, region, grants[i], blob);
      if !ok {
        OneRefusalRefusesAll(store, region, grants, i);
        return;
      }
      descriptor := descriptor + keys;
    }
    ok := true;
  }

  // ---- What the two halves mean together ----

  /** An output of this grant asks for a field of this PKI. */
  predicate Asks(g: PkiGrant, v: string, target: string, field: string) {
    v in g.outputs && Target(g.name) == target && LoneField(g.outputs[v]) == Some(field)
  }

  lemma NamesIffAsks(store: map<string, Material>, region: string, g: PkiGrant, target: string, field: string)
    requires GrantOk(store, region, g) && field in {CERT, KEY}
    ensures Names(g, FileKey(target, field)) <==> exists v :: Asks(g, v, target, field)
    ensures forall v | Asks(g, v, target, field) :: field in FieldNames(g.permission)
  {
    var k := FileKey(target, field);
    if v :| v in g.outputs && KeyOf(g, v) == k {
      assert OutputOk(g, v);
      FileKeyInjective(target, field, Target(g.name), FieldOf(g, v));
      assert Asks(g, v, target, field);
    }
    forall v | Asks(g, v, target, field) ensures field in FieldNames(g.permission) && KeyOf(g, v) == k {
      assert OutputOk(g, v);
    }
    if v :| Asks(g, v, target, field) { assert KeyOf(g, v) == k; }
  }

  /** A PKI's certificate or key is delivered exactly when a grant asks for it, and no grant asks for what its
      permission does not publish. */
  lemma DeliveredIff(store: map<string, Material>, region: string, grants: seq<PkiGrant>, target: string, field: string)
    requires AllOk(store, region, grants, |grants|) && field in {CERT, KEY}
    ensures FileKey(target, field) in BlobFiles(store, grants) <==>
      exists g, v :: g in grants && Asks(g, v, target, field)
    ensures forall g, v | g in grants && Asks(g, v, target, field) :: field in FieldNames(g.permission)
  {
    BlobToHolds(store, region, grants, |grants|, FileKey(target, field));
    forall i | 0 <= i < |grants|
      ensures Names(grants[i], FileKey(target, field)) <==> exists v :: Asks(grants[i], v, target, field)
      ensures forall v | Asks(grants[i], v, target, field) :: field in FieldNames(grants[i].permission)
    {
      AllOkMeans(store, region, grants, |grants|, i);
      NamesIffAsks(store, region, grants[i], target, field);
    }
  }

  /** A signing key reaches the host only through a read-write grant on its PKI. */
  lemma SigningKeyNeedsReadWrite(store: map<string, Material>, region: string, grants: seq<PkiGrant>, target: string)
    requires AllOk(store, region, grants, |grants|) && FileKey(target, KEY) in BlobFiles(store, grants)
    ensures exists g :: g in grants && Target(g.name) == target && g.permission == ReadWrite
  {
    DeliveredIff(store, region, grants, target, KEY);
    var g, v :| g in grants && Asks(g, v, target, KEY);
    assert g.permission == ReadWrite;
  }

  /** And what is delivered under a PKI's key is that PKI's own field. */
  lemma DeliveredIsOwn(store: map<string, Material>, region: string, grants: seq<PkiGrant>, target: string,
                       field: string)
    requires AllOk(store, region, grants, |grants|) && field in {CERT, KEY}
          && FileKey(target, field) in BlobFiles(store, grants)
    ensures target in store && BlobFiles(store, grants)[FileKey(target, field)] == Pem(store[target], field) != ""
  {
    BlobIsFaithful(store, region, grants, |grants|);
    var key := FileKey(target, field);
    assert IsMaterial(store, key, BlobFiles(store, grants)[key]);
    var t, f :| t in store && f in {CERT, KEY} && key == FileKey(t, f)
      && BlobFiles(store, grants)[key] == Pem(store[t], f) && Pem(store[t], f) != "";
    FileKeyInjective(t, f, target, field);
  }

  /** Both halves agree: a variable leads to the field of the PKI that the last grant to claim it asks for. */
  lemma GrantedVariableLeads(store: map<string, Material>, grants: seq<PkiGrant>, region: string, i: nat, v: string)
    requires i < |grants| && v in grants[i].outputs && forall j | i < j < |grants| :: v !in grants[j].outputs
    requires AllOk(store, region, grants, |grants|)
    ensures GrantOk(store, region, grants[i]) && OutputOk(grants[i], v)
    ensures v in DescriptorFiles(grants) && DescriptorFiles(grants)[v] in BlobFiles(store, grants)
    ensures BlobFiles(store, grants)[DescriptorFiles(grants)[v]]
            == Pem(store[Target(grants[i].name)], LoneField(grants[i].outputs[v]).value) != ""
  {
    DescribedBy(grants, |grants|, i, v);
    AllOkMeans(store, region, grants, |grants|, i);
    var target, field := Target(grants[i].name), LoneField(grants[i].outputs[v]).value;
    assert OutputOk(grants[i], v) && Asks(grants[i], v, target, field);
    DeliveredIff(store, region, grants, target, field);
    DeliveredIsOwn(store, region, grants, target, field);
  }

  /** The last grant to claim a variable. */
  function ClaimedBy(grants: seq<PkiGrant>, n: nat, v: string): (r: Option<nat>)
    requires n <= |grants|
    ensures r.Some? ==>
      r.value < n && v in grants[r.value].outputs && forall j | r.value < j < n :: v !in grants[j].outputs
    ensures r.None? ==> forall j | 0 <= j < n :: v !in grants[j].outputs
  {
    if n == 0 then None else if v in grants[n - 1].outputs then Some(n - 1) else ClaimedBy(grants, n - 1, v)
  }

  lemma {:induction false} DescribedIff(grants: seq<PkiGrant>, n: nat, v: string)
    requires n <= |grants|
    ensures v in DescriptorTo(grants, n) <==> ClaimedBy(grants, n, v).Some?
    decreases n
  {
    if n > 0 {
      DescribedIff(grants, n - 1, v);
    }
  }

  /** Every file key the descriptor names has its material. */
  lemma DescriptorIsCovered(store: map<string, Material>, region: string, grants: seq<PkiGrant>, v: string)
    requires AllOk(store, region, grants, |grants|) && v in DescriptorFiles(grants)
    ensures DescriptorFiles(grants)[v] in BlobFiles(store, grants)
         && BlobFiles(store, grants)[DescriptorFiles(grants)[v]] != ""
  {
    DescribedIff(grants, |grants|, v);
    GrantedVariableLeads(store, grants, region, ClaimedBy(grants, |grants|, v).value, v);
  }

  lemma {:induction false} DescribedBy(grants: seq<PkiGrant>, n: nat, i: nat, v: string)
    requires i < n <= |grants| && v in grants[i].outputs && forall j | i < j < n :: v !in grants[j].outputs
    ensures v in DescriptorTo(grants, n) && DescriptorTo(grants, n)[v] == KeyOf(grants[i], v)
    decreases n
  {
    if i < n - 1 {
      DescribedBy(grants, n - 1, i, v);
      assert v !in grants[n - 1].outputs;
    }
  }
}
