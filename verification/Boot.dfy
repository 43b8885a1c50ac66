/** From a service's resolved material to the environment its process is started with
    (program/program.go renderDescriptor, internal/meshcert, internal/agent run.go and env.go). */
module Boot {
  import opened Common
  import opened Delivery
  import opened HostPaths
  import opened Segments
  import Projection
  import PkiGrants

  type Environment = seq<(string, string)>

  datatype Deployment = Deployment(
    region: string, regionSlug: string, environment: string, baseDomain: string, fqdn: string, hostId: string,
    cloudProvider: string, cloudRegion: string, availabilityZone: string, machineType: string)

  datatype MeshContract = MeshContract(url: string, scope: string, port: Option<string>)

  datatype Descriptor = Descriptor(
    service: string, user: string, env: map<string, string>, files: map<string, string>,
    deployment: Option<Deployment>, mesh: Option<MeshContract>)

  // ---- The descriptor and the renewed leaf ----

  function MeshFiles(): map<string, string> {
    map["MTLS_LEAF_CERT_PATH" := "mtls/leaf.crt", "MTLS_LEAF_KEY_PATH" := "mtls/leaf.key",
        "MTLS_TRUST_BUNDLE_PATH" := "mtls/bundle.crt"]
  }

  function LeafBlob(leaf: string, key: string, bundle: string): Blob {
    Blob(map[], map["mtls/leaf.crt" := leaf, "mtls/leaf.key" := key, "mtls/bundle.crt" := bundle])
  }

  /** Every file the descriptor of an opted-in service names is in the leaf blob, and nothing else is. */
  lemma MeshKeysAgree(leaf: string, key: string, bundle: string)
    ensures MeshFiles().Values == LeafBlob(leaf, key, bundle).files.Keys
  {
    var m := MeshFiles();
    assert m["MTLS_LEAF_CERT_PATH"] in m.Values && m["MTLS_LEAF_KEY_PATH"] in m.Values
      && m["MTLS_TRUST_BUNDLE_PATH"] in m.Values;
  }

  predicate GrantKeys(keys: set<string>) { forall k | k in keys :: "pki/" <= k }

  /** The two key spaces never meet, so the merge of the two artefacts never fails on files. */
  lemma LeafAndGrantsDisjoint(keys: set<string>, leaf: string, key: string, bundle: string)
    requires GrantKeys(keys)
    ensures keys !! LeafBlob(leaf, key, bundle).files.Keys
  {
    forall k | k in LeafBlob(leaf, key, bundle).files ensures k !in keys {
      assert k[0] == 'm' && "pki/"[0] == 'p';
    }
  }

  function RenderDescriptor(service: string, user: string, names: set<string>, mtls: bool,
                            grantFiles: map<string, string>, deployment: Deployment, mesh: Option<MeshContract>)
    : Descriptor
  {
    Descriptor(service, user, map n | n in names :: n, (if mtls then MeshFiles() else map[]) + grantFiles,
               Some(deployment), mesh)
  }

  // ---- The base environment ----

  function Optional(name: string, value: string): Environment { if value == "" then [] else [(name, value)] }

  const MINIMAL_PATH := "/usr/local/sbin:/usr/local/bin:/usr/sbin:/usr/bin:/sbin:/bin"

  function Own(suffix: string): (name: string)
    ensures Reserved(name)
  {
    RESERVED + suffix
  }

  function LoginEnv(d: Descriptor, home: string): Environment {
    [("PATH", MINIMAL_PATH), ("HOME", home), ("USER", d.user), ("LOGNAME", d.user)]
  }

  function IdentityEnv(d: Descriptor, home: string, instance: string): Environment {
    LoginEnv(d, home) + [(Own("SERVICE_NAMESPACE"), d.service)] + Optional(Own("INSTANCE_ID"), instance)
  }

  function PlacementEnv(d: Deployment): Environment {
    [(Own("DEPLOYMENT_REGION"), d.region), (Own("DEPLOYMENT_REGION_SLUG"), d.regionSlug),
     (Own("DEPLOYMENT_ENV"), d.environment), (Own("DEPLOYMENT_BASE_DOMAIN"), d.baseDomain),
     (Own("DEPLOYMENT_FQDN"), d.fqdn), (Own("HOST_ID"), d.hostId)]
  }

  function DeploymentEnv(d: Deployment): Environment {
    PlacementEnv(d) + Optional(Own("CLOUD_PROVIDER"), d.cloudProvider) + Optional(Own("CLOUD_REGION"), d.cloudRegion)
    + Optional(Own("CLOUD_AVAILABILITY_ZONE"), d.availabilityZone) + Optional(Own("HOST_TYPE"), d.machineType)
  }

  function MeshEnv(m: MeshContract): Environment {
    [(Own("MESH_URL"), m.url), (Own("MESH_SCOPE"), m.scope)]
    + (match m.port case Some(p) => [(Own("MESH_PORT"), p)] case None => [])
  }

  function BaseEnv(d: Descriptor, home: string, instance: string): Environment {
    IdentityEnv(d, home, instance)
    + (match d.deployment case Some(dpl) => DeploymentEnv(dpl) case None => [])
    + (match d.mesh case Some(m) => MeshEnv(m) case None => [])
  }

  const LOGIN := {"PATH", "HOME", "USER", "LOGNAME"}

  const RESERVED := "INFORGE_"

  predicate Reserved(name: string) { RESERVED <= name }

  ghost predicate OwnNames(e: Environment) { forall p | p in e :: p.0 in LOGIN || Reserved(p.0) }

  lemma OwnConcat(a: Environment, b: Environment)
    requires OwnNames(a) && OwnNames(b)
    ensures OwnNames(a + b)
  {
  }

  lemma LoginNamesAreOwn(d: Descriptor, home: string)
    ensures OwnNames(LoginEnv(d, home))
    ensures forall n | n in LOGIN :: exists p :: p in LoginEnv(d, home) && p.0 == n
  {
    var e := LoginEnv(d, home);
    assert e[0] in e && e[1] in e && e[2] in e && e[3] in e;
  }

  lemma DeploymentNamesAreOwn(d: Deployment)
    ensures OwnNames(DeploymentEnv(d))
  {
    var a, b, c, f := Optional(Own("CLOUD_PROVIDER"), d.cloudProvider), Optional(Own("CLOUD_REGION"), d.cloudRegion),
      Optional(Own("CLOUD_AVAILABILITY_ZONE"), d.availabilityZone), Optional(Own("HOST_TYPE"), d.machineType);
    OwnConcat(PlacementEnv(d), a);
    OwnConcat(PlacementEnv(d) + a, b);
    OwnConcat(PlacementEnv(d) + a + b, c);
    OwnConcat(PlacementEnv(d) + a + b + c, f);
  }

  /** The base holds the four login names and otherwise only reserved ones. */
  lemma BaseNamesAreOwn(d: Descriptor, home: string, instance: string)
    ensures OwnNames(BaseEnv(d, home, instance))
    ensures forall n | n in LOGIN :: exists p :: p in BaseEnv(d, home, instance) && p.0 == n
  {
    LoginNamesAreOwn(d, home);
    var a := LoginEnv(d, home);
    var b := [(Own("SERVICE_NAMESPACE"), d.service)];
    var c := Optional(Own("INSTANCE_ID"), instance);
    var e := if d.deployment.Some? then DeploymentEnv(d.deployment.value) else [];
    var f := if d.mesh.Some? then MeshEnv(d.mesh.value) else [];
    if d.deployment.Some? { DeploymentNamesAreOwn(d.deployment.value); }
    OwnConcat(a, b);
    OwnConcat(a + b, c);
    OwnConcat(a + b + c, e);
    OwnConcat(a + b + c + e, f);
    assert BaseEnv(d, home, instance) == a + b + c + e + f;
    forall n | n in LOGIN ensures exists p :: p in BaseEnv(d, home, instance) && p.0 == n {
      var p :| p in a && p.0 == n;
      assert p in a + b + c + e + f;
    }
  }

  // ---- Counting ----

  function CountOf(e: Environment, name: string): nat {
    if e == [] then 0 else CountOf(e[..|e| - 1], name) + (if e[|e| - 1].0 == name then 1 else 0)
  }

  lemma {:induction false} CountConcat(a: Environment, b: Environment, name: string)
    ensures CountOf(a + b, name) == CountOf(a, name) + CountOf(b, name)
    decreases |b|
  {
    if b == [] {
      assert a + b == a;
    } else {
      CountConcat(a, b[..|b| - 1], name);
      assert (a + b)[..|a + b| - 1] == a + b[..|b| - 1] && (a + b)[|a + b| - 1] == b[|b| - 1];
    }
  }

  lemma {:induction false} CountZeroIff(e: Environment, name: string)
    ensures CountOf(e, name) == 0 <==> forall p | p in e :: p.0 != name
    decreases |e|
  {
    if e != [] {
      CountZeroIff(e[..|e| - 1], name);
      assert e == e[..|e| - 1] + [e[|e| - 1]];
    }
  }

  function At(m: map<string, string>, k: string): string { if k in m then m[k] else "" }

  /** A map's entries in the order of some names. */
  function PairsTo(names: seq<string>, m: map<string, string>, n: nat): Environment
    requires n <= |names|
  {
    if n == 0 then [] else PairsTo(names, m, n - 1) + [(names[n - 1], At(m, names[n - 1]))]
  }

  function Pairs(m: map<string, string>): Environment { PairsTo(Sorted(m.Keys), m, |Sorted(m.Keys)|) }

  lemma {:induction false} PairsToAre(names: seq<string>, m: map<string, string>, n: nat, name: string)
    requires n <= |names| && NoDuplicates(names)
    ensures CountOf(PairsTo(names, m, n), name) == if name in names[..n] then 1 else 0
    ensures name in names[..n] ==> (name, At(m, name)) in PairsTo(names, m, n)
    decreases n
  {
    if n > 0 {
      PairsToAre(names, m, n - 1, name);
      assert names[..n] == names[..n - 1] + [names[n - 1]];
      assert names[n - 1] !in names[..n - 1];
    }
  }

  /** A map contributes each of its names once, with its value. */
  lemma PairsAre(m: map<string, string>, name: string)
    ensures CountOf(Pairs(m), name) == if name in m then 1 else 0
    ensures name in m ==> (name, m[name]) in Pairs(m)
  {
    var names := Sorted(m.Keys);
    SortedNoDuplicates(m.Keys);
    PairsToAre(names, m, |names|, name);
    assert names[..|names|] == names;
  }

  // ---- Boot ----

  predicate Resolves(secrets: map<string, string>, refs: map<string, string>) {
    forall n | n in refs :: refs[n] in secrets && secrets[refs[n]] != ""
  }

  /** Each name with the value its reference resolves to. */
  function Resolved(secrets: map<string, string>, refs: map<string, string>): map<string, string> {
    map n | n in refs :: At(secrets, refs[n])
  }

  predicate NameOk(d: Descriptor, secrets: map<string, string>, n: string) {
    n in d.env && !Reserved(n) && d.env[n] in secrets && secrets[d.env[n]] != ""
  }

  predicate EnvOk(d: Descriptor, secrets: map<string, string>) { forall n | n in d.env :: NameOk(d, secrets, n) }

  predicate NamesOk(d: Descriptor, secrets: map<string, string>, names: seq<string>) {
    forall n | n in names :: NameOk(d, secrets, n)
  }

  /** One more name in order; a bad one spoils the whole environment. */
  lemma NamesOkStep(d: Descriptor, secrets: map<string, string>, names: seq<string>, i: nat)
    requires i < |names| && (forall n | n in names :: n in d.env) && NamesOk(d, secrets, names[..i])
    ensures NameOk(d, secrets, names[i]) ==> NamesOk(d, secrets, names[..i + 1])
    ensures !NameOk(d, secrets, names[i]) ==> !EnvOk(d, secrets)
    ensures NameOk(d, secrets, names[i]) ==> names[i] in d.env && d.env[names[i]] in secrets
  {
    assert names[..i + 1] == names[..i] + [names[i]];
    assert names[i] in names;
  }

  /** The environment before the file paths: a reserved name or a missing or empty secret stops the start. */
  method BuildEnv(d: Descriptor, secrets: map<string, string>, home: string, instance: string)
    returns (r: Result<Environment>)
    ensures r.Ok? <==> EnvOk(d, secrets)
    ensures r.Ok? ==> r.value == BaseEnv(d, home, instance) + Pairs(Resolved(secrets, d.env))
  {
    var names := Sorted(d.env.Keys);
    var env: Environment := [];
    for i := 0 to |names|
      invariant NamesOk(d, secrets, names[..i])
      invariant env == PairsTo(names, Resolved(secrets, d.env), i)
    {
      NamesOkStep(d, secrets, names, i);
      if !NameOk(d, secrets, names[i]) {
        return Err("env var cannot be set");
      }
      env := env + [(names[i], secrets[d.env[names[i]]])];
    }
    assert names[..|names|] == names;
    assert Resolved(secrets, d.env).Keys == d.env.Keys;
    r := Ok(BaseEnv(d, home, instance) + env);
  }

  function Paths(files: map<string, string>, dir: string): map<string, string> {
    map v | v in files :: PathOf(dir, files[v])
  }

  // ---- Projection, by path ----

  /** What opening an absolute path yields. */
  function Opened(disk: map<Projection.Path, Projection.File>, path: string): Option<string> {
    if Locate(path) in disk then Some(disk[Locate(path)].content) else None
  }

  /** Each wanted file can be read at its path, with its material. */
  ghost predicate OnDisk(disk: map<Projection.Path, Projection.File>, files: map<string, string>,
                         secrets: map<string, string>, dir: string)
  {
    forall v | v in files :: files[v] in secrets && Opened(disk, PathOf(dir, files[v])) == Some(secrets[files[v]])
  }

  function Wanted(files: map<string, string>): map<string, Projection.Path> { map v | v in files :: Split(files[v]) }

  /** Material by the segments of its key; distinct keys have distinct segments. */
  function BySegments(secrets: map<string, string>): map<Projection.Path, string> {
    map p | p in (set k | k in secrets :: Split(k)) :: At(secrets, Join(p))
  }

  lemma SegmentsHold(secrets: map<string, string>, key: string)
    ensures Split(key) in BySegments(secrets) <==> key in secrets
    ensures key in secrets ==> BySegments(secrets)[Split(key)] == secrets[key]
  {
    JoinSplit(key);
    if Split(key) in BySegments(secrets) {
      var k :| k in secrets && Split(k) == Split(key);
      SplitInjective(k, key);
    }
  }

  lemma MaterialIff(files: map<string, string>, secrets: map<string, string>)
    ensures Projection.HasMaterial(Wanted(files), BySegments(secrets)) <==> Resolves(secrets, files)
  {
    forall v | v in files
      ensures Wanted(files)[v] in BySegments(secrets) && BySegments(secrets)[Wanted(files)[v]] != ""
         <==> files[v] in secrets && secrets[files[v]] != ""
    {
      SegmentsHold(secrets, files[v]);
    }
  }

  /** A completed projection leaves every wanted file readable at its path. */
  lemma ProjectedIsOnDisk(before: map<Projection.Path, Projection.File>, files: map<string, string>,
                          secrets: map<string, string>, service: string, uid: nat)
    requires Resolves(secrets, files)
    ensures var dir := Locate(RuntimeDir(service));
      var changed := Projection.Changed(before, Projection.Dests(Wanted(files), dir), BySegments(secrets), dir);
      OnDisk(Projection.Committed(before, changed, BySegments(secrets), dir, uid), files, secrets, RuntimeDir(service))
  {
    MaterialIff(files, secrets);
    Projection.MaterialLands(before, Wanted(files), BySegments(secrets), Locate(RuntimeDir(service)), uid);
    forall v | v in files
      ensures Locate(PathOf(RuntimeDir(service), files[v])) == Locate(RuntimeDir(service)) + Wanted(files)[v]
      ensures Resolves(secrets, files) ==> BySegments(secrets)[Wanted(files)[v]] == secrets[files[v]]
    {
      KeyUnder(service, files[v]);
      SegmentsHold(secrets, files[v]);
    }
  }

  /** The path entries as the process sees them. */
  function Rendered(pathEnv: seq<(string, Projection.Path)>): Environment {
    if pathEnv == [] then [] else [(pathEnv[0].0, Render(pathEnv[0].1))] + Rendered(pathEnv[1..])
  }

  lemma {:induction false} PairsCons(names: seq<string>, m: map<string, string>, n: nat)
    requires 0 < n <= |names|
    ensures PairsTo(names, m, n) == [(names[0], At(m, names[0]))] + PairsTo(names[1..], m, n - 1)
    decreases n
  {
    if n > 1 { PairsCons(names, m, n - 1); }
  }

  /** Some variables with their paths, in a given order. */
  function PathsInOrder(names: seq<string>, wanted: map<string, Projection.Path>, dir: Projection.Path)
    : seq<(string, Projection.Path)>
    requires forall v | v in names :: v in wanted
  {
    if names == [] then [] else [(names[0], dir + wanted[names[0]])] + PathsInOrder(names[1..], wanted, dir)
  }

  lemma {:induction false} PathEnvInOrder(vars: set<string>, wanted: map<string, Projection.Path>, dir: Projection.Path)
    requires vars <= wanted.Keys
    ensures Projection.PathEnv(vars, wanted, dir) == PathsInOrder(Sorted(vars), wanted, dir)
    decreases |vars|
  {
    if vars != {} {
      PathEnvInOrder(vars - {Least(vars)}, wanted, dir);
      assert Sorted(vars)[1..] == Sorted(vars - {Least(vars)});
    }
  }

  lemma RenderedCons(v: string, p: Projection.Path, rest: seq<(string, Projection.Path)>)
    ensures Rendered([(v, p)] + rest) == [(v, Render(p))] + Rendered(rest)
  {
    assert ([(v, p)] + rest)[1..] == rest;
  }

  lemma {:induction false} RenderedIsPairs(names: seq<string>, wanted: map<string, Projection.Path>,
                                           dir: Projection.Path, m: map<string, string>)
    requires forall v | v in names :: v in wanted && At(m, v) == Render(dir + wanted[v])
    ensures Rendered(PathsInOrder(names, wanted, dir)) == PairsTo(names, m, |names|)
    decreases |names|
  {
    if names != [] {
      var v, rest := names[0], PathsInOrder(names[1..], wanted, dir);
      RenderedIsPairs(names[1..], wanted, dir, m);
      PairsCons(names, m, |names|);
      RenderedCons(v, dir + wanted[v], rest);
    }
  }

  lemma RenderedPaths(files: map<string, string>, service: string)
    ensures Rendered(Projection.PathEnv(Wanted(files).Keys, Wanted(files), Locate(RuntimeDir(service)))) ==
      Pairs(Paths(files, RuntimeDir(service)))
  {
    var paths := Paths(files, RuntimeDir(service));
    forall v | v in files ensures At(paths, v) == Render(Locate(RuntimeDir(service)) + Wanted(files)[v]) {
      KeyUnder(service, files[v]);
    }
    assert Wanted(files).Keys == files.Keys == paths.Keys;
    PathEnvInOrder(files.Keys, Wanted(files), Locate(RuntimeDir(service)));
    RenderedIsPairs(Sorted(files.Keys), Wanted(files), Locate(RuntimeDir(service)), paths);
  }

  /** What boot needs besides a working file system. */
  predicate Bootable(d: Descriptor, deployed: Option<Blob>, renewed: Option<Blob>) {
    && (deployed.Some? && renewed.Some? ==> Disjoint(deployed.value, renewed.value))
    && Resolves(Merged(deployed, renewed).files, d.files) && EnvOk(d, Merged(deployed, renewed).env)
  }

  /** Decrypt and merge, project the files, build the environment, append the paths: any failure stops before exec. */
  method RunBoot(host: Projection.Host, d: Descriptor, deployed: Option<Blob>, renewed: Option<Blob>, uid: nat,
                 home: string, instance: string)
    returns (r: Result<Environment>)
    modifies host
    ensures r.Ok? <==> Bootable(d, deployed, renewed) && Projection.NoFault(host.faults, old(host.calls), host.calls)
    ensures r.Ok? ==> r.value == BaseEnv(d, home, instance) + Pairs(Resolved(Merged(deployed, renewed).env, d.env))
                                 + Pairs(Paths(d.files, RuntimeDir(d.service)))
    ensures r.Ok? ==> OnDisk(host.files, d.files, Merged(deployed, renewed).files, RuntimeDir(d.service))
  {
    var loaded := LoadSecretsBlobs(deployed, renewed);
    if loaded.Err? {
      return Err(loaded.error);
    }
    var blob := loaded.value;
    MaterialIff(d.files, blob.files);
    var projected := host.ProjectFiles(Wanted(d.files), BySegments(blob.files), Locate(RuntimeDir(d.service)), uid);
    if projected.Failed? {
      return Err("projection failed");
    }
    ProjectedIsOnDisk(old(host.files), d.files, blob.files, d.service, uid);
    var env := BuildEnv(d, blob.env, home, instance);
    if env.Err? {
      return Err(env.error);
    }
    RenderedPaths(d.files, d.service);
    r := Ok(env.value + Rendered(projected.pathEnv));
  }

  /** How often a name appears: once for the base, once for the secret, once for the file path. */
  lemma NameCount(base: Environment, secrets: map<string, string>, paths: map<string, string>, name: string)
    ensures CountOf(base + Pairs(secrets) + Pairs(paths), name) ==
      CountOf(base, name) + (if name in secrets then 1 else 0) + (if name in paths then 1 else 0)
  {
    PairsAre(secrets, name);
    PairsAre(paths, name);
    CountConcat(base, Pairs(secrets), name);
    CountConcat(base + Pairs(secrets), Pairs(paths), name);
  }

  /** Each secret reaches the process with its value, once unless its name is also a login name or a file variable. */
  ghost predicate SecretsDelivered(started: Environment, env: map<string, string>, files: map<string, string>) {
    forall n | n in env :: (n, env[n]) in started && (CountOf(started, n) == 1 <==> n !in LOGIN && n !in files)
  }

  /** Each file variable leads to its path, once unless the base or a secret has its name. */
  ghost predicate PathsDelivered(started: Environment, base: Environment, env: map<string, string>,
                                 files: map<string, string>, dir: string)
  {
    forall v | v in files ::
      (v, PathOf(dir, files[v])) in started && (CountOf(started, v) == 1 <==> CountOf(base, v) == 0 && v !in env)
  }

  /** The process can open the path in this variable and reads this. */
  ghost predicate ReadsAs(started: Environment, disk: map<Projection.Path, Projection.File>, v: string, content: string)
  {
    exists path :: (v, path) in started && Opened(disk, path) == Some(content)
  }

  lemma PathIsRead(started: Environment, base: Environment, env: map<string, string>, d: Descriptor,
                   secrets: map<string, string>, disk: map<Projection.Path, Projection.File>, v: string)
    requires v in d.files && PathsDelivered(started, base, env, d.files, RuntimeDir(d.service))
    requires OnDisk(disk, d.files, secrets, RuntimeDir(d.service))
    ensures d.files[v] in secrets && ReadsAs(started, disk, v, secrets[d.files[v]])
  {
    assert (v, PathOf(RuntimeDir(d.service), d.files[v])) in started;
  }

  lemma IdentityEnvOk(d: Descriptor, env: map<string, string>)
    requires d.env == map n | n in env :: n
    ensures NoEmptyValue(env) && (forall n | n in env :: !Reserved(n)) <==> EnvOk(d, env)
  {
    assert forall n :: n in d.env <==> n in env;
    if EnvOk(d, env) {
      forall n | n in env ensures env[n] != "" && !Reserved(n) { assert NameOk(d, env, n); }
    }
  }

  ghost predicate IsLeafBlob(b: Blob) { exists leaf, key, bundle :: b == LeafBlob(leaf, key, bundle) }

  /** What the host decrypts: the deployed blob, absent when there is nothing to deliver, merged with the renewed
      one. */
  method ReceiveBlob(env: map<string, string>, grantBlob: map<string, string>, ghost renewed: Option<Blob>)
    returns (r: Result<Option<Blob>>)
    requires GrantKeys(grantBlob.Keys) && (renewed.Some? ==> IsLeafBlob(renewed.value))
    ensures r.Ok? <==> NoEmptyValue(env) && NoEmptyValue(grantBlob)
    ensures r.Ok? ==> Merged(r.value, renewed) == Blob(env, AllFiles(grantBlob, renewed))
    ensures r.Ok? && r.value.Some? && renewed.Some? ==> Disjoint(r.value.value, renewed.value)
  {
    if env == map[] && grantBlob == map[] {
      return Ok(None);
    }
    var blob := DeliveredBlob(env, grantBlob);
    if blob.Err? {
      return Err(blob.error);
    }
    MarshalRoundTrip(blob.value);
    if renewed.Some? { LeafKeysApart(grantBlob.Keys, renewed.value); }
    var decoded := Decode(Marshal(blob.value));
    r := Ok(Some(decoded));
  }

  // ---- End to end ----

  /** What is authored of a service besides its secrets and grants. */
  datatype Spec = Spec(service: string, user: string, mtls: bool, deployment: Deployment, mesh: Option<MeshContract>)

  function DescriptorOf(spec: Spec, env: map<string, string>, grants: seq<PkiGrants.PkiGrant>): Descriptor {
    RenderDescriptor(spec.service, spec.user, env.Keys, spec.mtls, PkiGrants.DescriptorFiles(grants), spec.deployment,
                     spec.mesh)
  }

  /** The descriptor names a file of the renewed leaf: opted in, and no grant's variable replaces all three. */
  predicate NeedsLeaf(spec: Spec, grants: seq<PkiGrants.PkiGrant>) {
    spec.mtls && !(MeshFiles().Keys <= PkiGrants.DescriptorFiles(grants).Keys)
  }

  /** Everything a start needs besides a working file system: materializable grants, no empty or reserved secret, and
      the leaf if one is named. */
  predicate Startable(spec: Spec, store: map<string, PkiGrants.Material>, region: string,
                      grants: seq<PkiGrants.PkiGrant>, env: map<string, string>, renewed: Option<Blob>)
  {
    && PkiGrants.AllOk(store, region, grants, |grants|) && NoEmptyValue(env) && (forall n | n in env :: !Reserved(n))
    && (NeedsLeaf(spec, grants) ==> renewed.Some?)
  }

  /** Every granted variable can be opened and holds the field of the PKI that the last grant to claim it asks for. */
  ghost predicate GrantsReadable(started: Environment, disk: map<Projection.Path, Projection.File>,
                                 store: map<string, PkiGrants.Material>, grants: seq<PkiGrants.PkiGrant>)
  {
    forall v | v in PkiGrants.DescriptorFiles(grants) :: GrantReadable(started, disk, store, grants, v)
  }

  ghost predicate GrantReadable(started: Environment, disk: map<Projection.Path, Projection.File>,
                                store: map<string, PkiGrants.Material>, grants: seq<PkiGrants.PkiGrant>, v: string)
  {
    match PkiGrants.ClaimedBy(grants, |grants|, v)
    case Some(i) =>
      && PkiGrants.Target(grants[i].name) in store
      && ReadsAs(started, disk, v,
                 PkiGrants.Pem(store[PkiGrants.Target(grants[i].name)], PkiGrants.FieldOf(grants[i], v)))
    case None => false
  }

  /** Every leaf variable can be opened and holds the renewed material. */
  ghost predicate LeafReadable(started: Environment, disk: map<Projection.Path, Projection.File>,
                               leaf: map<string, string>, grants: seq<PkiGrants.PkiGrant>)
  {
    forall v | v in MeshFiles() && v !in PkiGrants.DescriptorFiles(grants) ::
      MeshFiles()[v] in leaf && ReadsAs(started, disk, v, leaf[MeshFiles()[v]])
  }

  /** Secret delivery end to end: the deploy resolves the grants, renders the descriptor and builds the blob; the host
      decrypts, merges, projects and starts the process. It starts exactly when everything needed is there and no
      file-system call fails, and then it sees each secret's value and reads each granted field at its variable's
      path. */
  method DeliverAndBoot(host: Projection.Host, spec: Spec, store: map<string, PkiGrants.Material>, region: string,
                        grants: seq<PkiGrants.PkiGrant>, env: map<string, string>, renewed: Option<Blob>, uid: nat,
                        home: string, instance: string)
    returns (r: Result<Environment>)
    requires renewed.Some? ==> IsLeafBlob(renewed.value) && NoEmptyValue(renewed.value.files)
    modifies host
    ensures r.Ok? <==> Startable(spec, store, region, grants, env, renewed)
                       && Projection.NoFault(host.faults, old(host.calls), host.calls)
    ensures r.Ok? ==> SecretsDelivered(r.value, env, DescriptorOf(spec, env, grants).files)
    ensures r.Ok? ==> PathsDelivered(r.value, BaseEnv(DescriptorOf(spec, env, grants), home, instance), env,
                                     DescriptorOf(spec, env, grants).files, RuntimeDir(spec.service))
    ensures r.Ok? ==> GrantsReadable(r.value, host.files, store, grants)
    ensures r.Ok? && spec.mtls && renewed.Some? ==> LeafReadable(r.value, host.files, renewed.value.files, grants)
  {
    var grantFiles, grantBlob, ok := PkiGrants.ResolvePkiGrants(store, region, grants);
    if !ok {
      return Err("a grant cannot be materialized");
    }
    var d := DescriptorOf(spec, env, grants);
    r := ReceiveAndBoot(host, spec, store, region, grants, env, grantBlob, d, renewed, uid, home, instance);
    if r.Ok? { WhatItReads(host.files, spec, store, region, grants, env, renewed, d, home, instance, r.value); }
  }

  /** The half of it on the host. */
  method ReceiveAndBoot(host: Projection.Host, ghost spec: Spec, ghost store: map<string, PkiGrants.Material>,
                        ghost region: string, ghost grants: seq<PkiGrants.PkiGrant>, env: map<string, string>,
                        grantBlob: map<string, string>, d: Descriptor, renewed: Option<Blob>, uid: nat, home: string,
                        instance: string)
    returns (r: Result<Environment>)
    requires renewed.Some? ==> IsLeafBlob(renewed.value) && NoEmptyValue(renewed.value.files)
    requires PkiGrants.AllOk(store, region, grants, |grants|) && grantBlob == PkiGrants.BlobFiles(store, grants)
    requires d == DescriptorOf(spec, env, grants)
    modifies host
    ensures r.Ok? <==> Startable(spec, store, region, grants, env, renewed)
                       && Projection.NoFault(host.faults, old(host.calls), host.calls)
    ensures r.Ok? ==> OnDisk(host.files, d.files, AllFiles(grantBlob, renewed), RuntimeDir(d.service))
    ensures r.Ok? ==> SecretsDelivered(r.value, env, d.files)
                      && PathsDelivered(r.value, BaseEnv(d, home, instance), env, d.files, RuntimeDir(d.service))
  {
    BlobIsSound(store, region, grants);
    IdentityEnvOk(d, env);
    var received := ReceiveBlob(env, grantBlob, renewed);
    if received.Err? {
      return Err(received.error);
    }
    RenderedResolvesIff(spec, env, store, region, grants, renewed);
    r := RunBoot(host, d, received.value, renewed, uid, home, instance);
    if r.Ok? { Appearances(d, env, RuntimeDir(d.service), home, instance, r.value); }
  }

  /** Grant material has keys of its own space and no empty value. */
  lemma BlobIsSound(store: map<string, PkiGrants.Material>, region: string, grants: seq<PkiGrants.PkiGrant>)
    requires PkiGrants.AllOk(store, region, grants, |grants|)
    ensures GrantKeys(PkiGrants.BlobFiles(store, grants).Keys) && NoEmptyValue(PkiGrants.BlobFiles(store, grants))
  {
    var blob := PkiGrants.BlobFiles(store, grants);
    PkiGrants.BlobIsFaithful(store, region, grants, |grants|);
    forall k | k in blob ensures "pki/" <= k && blob[k] != "" {
      assert PkiGrants.IsMaterial(store, k, blob[k]);
      var t, f :| t in store && f in {PkiGrants.CERT, PkiGrants.KEY} && k == PkiGrants.FileKey(t, f);
      PkiGrants.FileKeyShape(t, f);
      assert k[..4] == "pki/";
    }
  }

  lemma WhatItReads(disk: map<Projection.Path, Projection.File>, spec: Spec, store: map<string, PkiGrants.Material>,
                    region: string, grants: seq<PkiGrants.PkiGrant>, env: map<string, string>, renewed: Option<Blob>,
                    d: Descriptor, home: string, instance: string, started: Environment)
    requires PkiGrants.AllOk(store, region, grants, |grants|) && d == DescriptorOf(spec, env, grants)
    requires renewed.Some? ==> IsLeafBlob(renewed.value)
    requires OnDisk(disk, d.files, AllFiles(PkiGrants.BlobFiles(store, grants), renewed), RuntimeDir(d.service))
    requires PathsDelivered(started, BaseEnv(d, home, instance), env, d.files, RuntimeDir(d.service))
    ensures GrantsReadable(started, disk, store, grants)
    ensures spec.mtls && renewed.Some? ==> LeafReadable(started, disk, renewed.value.files, grants)
  {
    var blob := PkiGrants.BlobFiles(store, grants);
    BlobIsSound(store, region, grants);
    if renewed.Some? { LeafKeysApart(blob.Keys, renewed.value); }
    forall v | v in PkiGrants.DescriptorFiles(grants) ensures GrantReadable(started, disk, store, grants, v) {
      PathIsRead(started, BaseEnv(d, home, instance), env, d, AllFiles(blob, renewed), disk, v);
      GrantIsRead(disk, store, region, grants, blob, renewed, started, v);
    }
    if spec.mtls && renewed.Some? {
      forall v | v in MeshFiles() && v !in PkiGrants.DescriptorFiles(grants)
        ensures MeshFiles()[v] in renewed.value.files && ReadsAs(started, disk, v, renewed.value.files[MeshFiles()[v]])
      {
        PathIsRead(started, BaseEnv(d, home, instance), env, d, AllFiles(blob, renewed), disk, v);
        LeafHolds(renewed.value, v);
      }
    }
  }

  lemma GrantIsRead(disk: map<Projection.Path, Projection.File>, store: map<string, PkiGrants.Material>, region: string,
                    grants: seq<PkiGrants.PkiGrant>, blob: map<string, string>, renewed: Option<Blob>,
                    started: Environment, v: string)
    requires PkiGrants.AllOk(store, region, grants, |grants|) && v in PkiGrants.DescriptorFiles(grants)
    requires blob == PkiGrants.BlobFiles(store, grants) && (renewed.Some? ==> blob.Keys !! renewed.value.files.Keys)
    requires PkiGrants.DescriptorFiles(grants)[v] in AllFiles(blob, renewed)
    requires ReadsAs(started, disk, v, AllFiles(blob, renewed)[PkiGrants.DescriptorFiles(grants)[v]])
    ensures GrantReadable(started, disk, store, grants, v)
  {
    PkiGrants.DescribedIff(grants, |grants|, v);
    PkiGrants.GrantedVariableLeads(store, grants, region, PkiGrants.ClaimedBy(grants, |grants|, v).value, v);
  }

  lemma LeafKeysApart(keys: set<string>, renewed: Blob)
    requires GrantKeys(keys) && IsLeafBlob(renewed)
    ensures keys !! renewed.files.Keys
  {
    var leaf, key, bundle :| renewed == LeafBlob(leaf, key, bundle);
    LeafAndGrantsDisjoint(keys, leaf, key, bundle);
  }

  lemma LeafHolds(renewed: Blob, v: string)
    requires IsLeafBlob(renewed) && v in MeshFiles()
    ensures MeshFiles()[v] in renewed.files
  {
    var leaf, key, bundle :| renewed == LeafBlob(leaf, key, bundle);
    MeshKeysAgree(leaf, key, bundle);
    assert MeshFiles()[v] in MeshFiles().Values;
  }

  function AllFiles(grantBlob: map<string, string>, renewed: Option<Blob>): map<string, string> {
    grantBlob + (match renewed case Some(b) => b.files case None => map[])
  }

  lemma Appearances(d: Descriptor, env: map<string, string>, dir: string, home: string, instance: string,
                    started: Environment)
    requires d.env == (map n | n in env :: n) && EnvOk(d, env)
    requires started == BaseEnv(d, home, instance) + Pairs(Resolved(env, d.env)) + Pairs(Paths(d.files, dir))
    ensures SecretsDelivered(started, env, d.files)
    ensures PathsDelivered(started, BaseEnv(d, home, instance), env, d.files, dir)
  {
    var base, paths := BaseEnv(d, home, instance), Paths(d.files, dir);
    ResolvesToItself(d.env, env);
    forall n | n in env ensures (n, env[n]) in started && (CountOf(started, n) == 1 <==> n !in LOGIN && n !in d.files) {
      assert NameOk(d, env, n);
      BaseHasLoginOnly(d, home, instance, n);
      SecretAppears(base, env, paths, n);
    }
    forall v | v in d.files
      ensures (v, PathOf(dir, d.files[v])) in started
           && (CountOf(started, v) == 1 <==> CountOf(base, v) == 0 && v !in env)
    {
      PathAppears(base, env, paths, v);
    }
  }

  lemma ResolvesToItself(refs: map<string, string>, env: map<string, string>)
    requires refs == (map n | n in env :: n)
    ensures Resolved(env, refs) == env
  {
  }

  lemma SecretAppears(base: Environment, env: map<string, string>, paths: map<string, string>, n: string)
    requires n in env
    ensures (n, env[n]) in base + Pairs(env) + Pairs(paths)
    ensures CountOf(base + Pairs(env) + Pairs(paths), n) == 1 <==> CountOf(base, n) == 0 && n !in paths
  {
    NameCount(base, env, paths, n);
    PairsAre(env, n);
  }

  lemma PathAppears(base: Environment, env: map<string, string>, paths: map<string, string>, v: string)
    requires v in paths
    ensures (v, paths[v]) in base + Pairs(env) + Pairs(paths)
    ensures CountOf(base + Pairs(env) + Pairs(paths), v) == 1 <==> CountOf(base, v) == 0 && v !in env
  {
    NameCount(base, env, paths, v);
    PairsAre(paths, v);
  }

  lemma BaseHasLoginOnly(d: Descriptor, home: string, instance: string, n: string)
    requires !Reserved(n)
    ensures CountOf(BaseEnv(d, home, instance), n) == 0 <==> n !in LOGIN
  {
    BaseNamesAreOwn(d, home, instance);
    CountZeroIff(BaseEnv(d, home, instance), n);
  }

  /** A rendered descriptor resolves against the two artefacts exactly when a leaf it names has been pushed. */
  lemma RenderedResolvesIff(spec: Spec, env: map<string, string>, store: map<string, PkiGrants.Material>,
                            region: string, grants: seq<PkiGrants.PkiGrant>, renewed: Option<Blob>)
    requires PkiGrants.AllOk(store, region, grants, |grants|)
    requires renewed.Some? ==> IsLeafBlob(renewed.value) && NoEmptyValue(renewed.value.files)
    ensures Resolves(AllFiles(PkiGrants.BlobFiles(store, grants), renewed), DescriptorOf(spec, env, grants).files)
       <==> (NeedsLeaf(spec, grants) ==> renewed.Some?)
  {
    var granted := PkiGrants.DescriptorFiles(grants);
    var all := AllFiles(PkiGrants.BlobFiles(store, grants), renewed);
    BlobIsSound(store, region, grants);
    forall v | v in granted ensures Holds(all, granted[v]) { GrantFileHeld(store, region, grants, renewed, v); }
    forall v | v in MeshFiles() ensures Holds(all, MeshFiles()[v]) <==> renewed.Some? {
      LeafFileHeldIff(PkiGrants.BlobFiles(store, grants), renewed, v);
    }
    var own := if spec.mtls then MeshFiles() else map[];
    if renewed.Some? || own.Keys <= granted.Keys {
      CoveredResolves(all, own, granted);
    } else {
      UncoveredFails(all, own, granted);
    }
  }

  /** Material that is there and not empty. */
  predicate Holds(all: map<string, string>, key: string) { key in all && all[key] != "" }

  lemma GrantFileHeld(store: map<string, PkiGrants.Material>, region: string, grants: seq<PkiGrants.PkiGrant>,
                      renewed: Option<Blob>, v: string)
    requires PkiGrants.AllOk(store, region, grants, |grants|) && v in PkiGrants.DescriptorFiles(grants)
    requires renewed.Some? ==> IsLeafBlob(renewed.value)
    ensures Holds(AllFiles(PkiGrants.BlobFiles(store, grants), renewed), PkiGrants.DescriptorFiles(grants)[v])
  {
    BlobIsSound(store, region, grants);
    if renewed.Some? { LeafKeysApart(PkiGrants.BlobFiles(store, grants).Keys, renewed.value); }
    PkiGrants.DescriptorIsCovered(store, region, grants, v);
  }

  lemma LeafFileHeldIff(blob: map<string, string>, renewed: Option<Blob>, v: string)
    requires GrantKeys(blob.Keys) && v in MeshFiles()
    requires renewed.Some? ==> IsLeafBlob(renewed.value) && NoEmptyValue(renewed.value.files)
    ensures Holds(AllFiles(blob, renewed), MeshFiles()[v]) <==> renewed.Some?
  {
    if renewed.Some? { LeafHolds(renewed.value, v); } else { MeshKeyIsNoGrant(blob.Keys, v); }
  }

  lemma CoveredResolves(all: map<string, string>, own: map<string, string>, granted: map<string, string>)
    requires forall v | v in granted :: Holds(all, granted[v])
    requires forall v | v in own && v !in granted :: Holds(all, own[v])
    ensures Resolves(all, own + granted)
  {
  }

  lemma UncoveredFails(all: map<string, string>, own: map<string, string>, granted: map<string, string>)
    requires !(own.Keys <= granted.Keys) && forall v | v in own :: !Holds(all, own[v])
    ensures !Resolves(all, own + granted)
  {
    var v :| v in own && v !in granted;
    assert (own + granted)[v] == own[v];
  }

  lemma MeshKeyIsNoGrant(keys: set<string>, v: string)
    requires GrantKeys(keys) && v in MeshFiles()
    ensures MeshFiles()[v] !in keys
  {
    LeafAndGrantsDisjoint(keys, "", "", "");
    LeafHolds(LeafBlob("", "", ""), v);
  }
}
