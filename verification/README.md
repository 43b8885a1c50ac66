# inforge: verified model

inforge compiles a declarative resource tree into host configuration and runs it as an ordered deploy. This project
models its hardest parts in Dafny and proves what they promise, for all inputs, runs and schedules.

`dafny verify dfyconfig.toml` checks everything.

## What is modelled

- `Mesh`, `MeshProxy`, `MeshPolicy`: from authored `allowed_services` to identities, listeners and routing tables, a
  request evaluator that walks a call hop by hop (egress listener, routing table, SNI, both certificates, path, allow
  map), and exactly when the compiled mesh admits what the policy permits.
- `Dag`, `DeployOrder`, `DeployRun`, `DeployGoals`, `DeployDb`, `Deploy`, `DeploySafety`: the deploy program as classes
  registering commands into a graph, exactly when it succeeds and what it has then registered, an execution as any
  interleaving the engine's rule allows (complete or cut short), and safety over all of them: mesh reloads before
  restarts, units before deliveries, databases before roles, roles before monitors, monitors before collectors, clusters before backups.
- `Crypto`, `PkiStore`, `PkiLifecycle`, `MasterRotation`: the PKI commands on symbolic cryptography with path validation
  after section 6.1 of RFC 5280, an invariant over every run, and the master-key rotation with crashes between its two
  writes.
- `Edge`, `NginxEdge`, `Firewall`, `Sni`, `Dns`: the separate derivations of the edge, and that they agree.
- `Lifecycle`: a service's two host commands under the engine's create, update, replace and delete rules of ADR-0042.
- `Template`, `PkiGrants`, `Delivery`, `Projection`, `HostPaths`, `Boot`: a secret from its grant template to what the
  started process reads, with a file system whose calls fail as a given schedule says.
- `Backup`, `Prelude`, `RoleNames`: backup keys and retention, the output protocol of an engine run, database role names.
- `Common`, `Segments`: options, results, the string order of every sorted traversal, and slash-separated names.

## Where the code does less than its comments say

Each is proved, most as the exact condition under which the promise holds, and several with a concrete input that breaks it.

- Allow variables: names differing only by dash against underscore share one nginx variable, so one callee's list
  replaces the other's: every such pair of names has resources that break the policy (`ClashBreaksPolicy`), and the
  policy survives exactly as `MeshPreservesPolicyIff` and `ClashExact` say.
- Health ports: two ingresses on one host with different ports leave the health listener behind a closed port
  (`MisalignedHealthIsClosed`, `PublicPlanExactIff`).
- Mesh port: it is opened on hosts whose members only call out, where nothing listens (`MeshPortIff`).
- DNS: deduplication hides an out-of-zone name behind an in-zone one of the same relative form, and nothing lands on it
  (`HiddenNameSlipsThrough`, `AcceptedIff`, `DeployDns`).
- DNS resource names: dots become dashes, so `a.b` and `a-b`, or the zone itself and `apex`, are accepted together and get
  one resource name (`ResourceNameEqualIff`, `ResourceNamesDistinctIff`, `TwinsSlipThrough`).
- Case: both server-name checks and the record check compare names as written, where nginx and DNS ignore case
  (`ApartForNginxIff`, `CaseTwinsPass`, `FoldedNamesDistinctIff`, `TwinsSlipThrough`).
- SNI: one route repeating a name is refused although no two servers clash (`RepeatIsRefused`).
- Lifecycle: returning to the same secrets after a descriptor-only deploy does not rewrite them, and replacing only the
  unit removes files nothing rewrites (`FlipBackLoses`, `UnitReplaceLoses`, `DeployConvergesIff`).
- Projection: an unchanged file keeps its former owner (`OwnedByServiceIff`), and a failing rename leaves a partial set
  (`ProjectFiles`).
- Retention: past 1000 surplus keys pruning never recovers (`StuckForever`).
- Output: a short write loses error bytes, the final dump's too (`ErrorsShownOnceIff`).

## Model

| member | source | states |
|---|---|---|
| `Mesh.ExpandAllowedCallers` | program/mesh.go:50-88 | an authored allow list expands to exactly the identities the scope rules give, sorted and without duplicates; a name is reported dropped exactly when it stands for nobody |
| `Mesh.MembersOn` | internal/meshplan/meshplan.go:25-41 | a host's members are exactly the pki services whose host resolves to it |
| `Mesh.InsertByName` | internal/meshplan/meshplan.go:25-41 | sorting by name neither loses nor repeats a member |
| `Mesh.MembersAreByName` | internal/meshplan/meshplan.go:25-41 | a host's members are in name order |
| `Mesh.EgressPortsByService` | program/mesh.go:168-176 | every member of a scope, over all its hosts, gets the port of its position on its own host, and no other name gets one |
| `Mesh.IndexOf` | program/mesh.go:109-158 | a member's position is a member of that name, and no position means no such member |
| `Mesh.EgressOfMembersAt` | program/mesh.go:109-124 | the listener at a position is that member's, on the port of that position: listener and injected URL agree |
| `Mesh.AppendTargets` | program/mesh.go:199-228 | one pass over a resource set keeps every earlier entry and adds the first resolvable callee of each new name |
| `Mesh.MeshTargets` | program/mesh.go:199-228 | the routing table yields, for every name, the same-scope callee first and the global one otherwise, with no name twice |
| `Mesh.FindCallee` | program/mesh.go:202-212 | the entry for a name is a resolvable callee of that name, and there is none only if no callee of that name resolves |
| `Mesh.LookupIs` | program/mesh.go:226-228 | sorting the routing table does not change what it yields |
| `Mesh.TrustSetList` | internal/meshcert/meshcert.go:135-150 | the trust list holds exactly global plus the own scope, or every region for global |
| `Mesh.TrustIsMutual` | internal/meshcert/meshcert.go:127-150 | two scopes trust each other exactly when they are one scope or one of them is global, and trust is symmetric |
| `MeshProxy.BuildAllowVarName` | internal/meshnginx/ingress.go:149-160 | the byte loop builds the prefix followed by the name with every non-alphanumeric byte replaced |
| `MeshProxy.AllowVarClashIff` | internal/meshnginx/ingress.go:145-160 | two schema names share an allow variable exactly when they differ at most by dash against underscore |
| `MeshProxy.AllowVarInjective` | internal/meshnginx/ingress.go:145-160 | without underscores every name has its own variable |
| `MeshProxy.AllowVarClashes` | internal/meshnginx/ingress.go:145-160 | a concrete pair of legal names with one variable |
| `MeshProxy.IdentityInjective` | program/mesh.go:50-88 | a caller identity determines scope and name |
| `MeshProxy.AllowedExactly` | program/mesh.go:50-88 | an identity is in the expanded list exactly when the name is authored and the direction rules allow the call |
| `MeshProxy.DialsOwnListener` | program/mesh.go:109-158 | the port a caller dials is its own listener, so the leaf presented is its own |
| `MeshProxy.DialsInjectedPort` | program/mesh.go:160-176 | the port injected into a service's mesh URL is the one its own listener has on its host |
| `MeshProxy.GatewayPortFreeIff` | internal/meshpaths/meshpaths.go:102-118 | no positional port is the gateway's exactly up to 256 members |
| `MeshProxy.TargetResolves` | program/mesh.go:199-228 | the routing table entry is exactly the callee the name resolves to, with its SNI and host |
| `MeshProxy.ServerIs` | internal/meshnginx/ingress.go:100-142 | the server an SNI selects on a host is that callee's, and none is selected only if the host has no such callee |
| `MeshProxy.ReachesIff` | internal/meshnginx/egress.go:36-104 | with no hypothesis on variables: a request to a resolved callee is reached exactly when both bundles cover the other end, a path matches and the allow map of its variable admits the true identity |
| `MeshProxy.OnePkiIsTrusted` | cmd/inforge/pki.go:885-914 | within one PKI, resolving a target already means both ends' bundles cover each other |
| `MeshProxy.RegionalBoundary` | program/mesh.go:30-49 | no request crosses two regions or goes from global into a region, with no hypothesis on the resources |
| `MeshPolicy.AllowIsDeciding` | internal/meshnginx/ingress.go:29-88 | the allow map admits a caller exactly when the last same-variable callee of the host names it and the direction is allowed |
| `MeshPolicy.RequestIff` | internal/meshnginx/egress.go:36-104 | with no hypothesis on names, a request to a resolved callee gets through exactly when trust and path pass and the deciding list admits the caller, with the caller's true identity |
| `MeshPolicy.PolicyKeptIff` | program/mesh.go:109-228 | such a request has the outcome the policy gives it exactly when the deciding list agrees with the callee's own about the caller, or nothing hangs on the list |
| `MeshPolicy.MeshPreservesPolicyIff` | program/mesh.go:109-228 | a request reaches a mesh port exactly when some callee its target resolves to permits it, if and only if that callee's deciding list agrees about the caller |
| `MeshPolicy.OwnVariableKeeps` | internal/meshnginx/ingress.go:29-88 | a callee with a variable of its own decides for itself |
| `MeshPolicy.DashNamesOwnVariables` | internal/meshnginx/ingress.go:145-160 | on a host whose members have no underscore every callee has its own variable |
| `MeshPolicy.SameListIff` | program/mesh.go:50-88 | two authored lists expand to one allow map exactly when they name the same callers: names that stand for nobody do not count |
| `MeshPolicy.ClashExact` | internal/meshnginx/ingress.go:29-88 | a callee keeps its allow map exactly when the deciding callee authors the same names (in a region) or names the same callers (globally) |
| `MeshPolicy.ClashBreaksPolicy` | internal/meshnginx/ingress.go:29-88 | for any two schema names that share a variable there are valid resources where a permitted caller is refused and an unlisted one gets through |
| `MeshPolicy.ClashingNames` | internal/meshnginx/ingress.go:145-160 | `a-b` and `a_b` are such names |
| `Dag.OrderedIff` | program/program.go:375-383 | a dependency path is exactly what every execution respects; without one some execution starts the dependent too early |
| `Dag.OverlapIff` | program/dbcluster.go:91-120 | two commands can be in flight together exactly when neither is an ancestor of the other |
| `Dag.NeverStuck` | program/program.go:375-383 | no execution of a registered graph deadlocks |
| `Dag.BeforeStable` | program/program.go:375-383 | later registrations never add or remove an ordering between two commands |
| `Dag.TurnsKept` | program/dbcluster.go:104-120 | registering after the newest command of a lane keeps the whole lane ordered |
| `Dag.LaneNeverOverlaps` | program/dbcluster.go:104-120 | no execution runs two commands of one lane at once |
| `Dag.LastInIs` | program/dbcluster.go:104-120 | the recorded tail of a lane is its newest command |
| `DeployOrder.RequireGlobalScopeFirst` | program/program.go:3127-3139 | the guard accepts exactly the scope orders with no global scope after a regional one |
| `DeployOrder.SoundKept` | program/program.go:382-458 | an admissible registration keeps every ordering rule of the graph |
| `DeployOrder.RegisteredIsSound` | program/program.go:382-458 | every graph built by admissible registrations is acyclic, ordered by lane, and gated by the mesh reloads |
| `DeployRun.Deployment.RegisterReload` | program/mesh.go:381-390 | a reload joins the accumulated list before any restart it must precede is registered |
| `DeployRun.Deployment.RealizeMesh` | program/mesh.go:296-404 | every mesh host with a reloading provider gets its reload, unless a host has no output |
| `DeployRun.Deployment.ProvisionUnit` | program/program.go:718-750 | the unit command waits for the host gate and every reload so far |
| `DeployRun.Deployment.DeliverSecrets` | program/program.go:1409-1501 | the secrets command waits for its host key, its unit and every reload so far |
| `DeployRun.Deployment.DeliverDescriptor` | program/program.go:1651-1674 | the descriptor-only command waits for its unit |
| `DeployRun.Deployment.ProvisionServices` | program/program.go:627-711 | every service of a scope gets its unit and the delivery its material calls for, unless a host does not resolve |
| `DeployDb.RegisterSetup` | program/dbcluster.go:153-243 | a setup command is chained after the host's newest one and becomes it |
| `DeployDb.SetUpPostmaster` | program/dbcluster.go:153-243 | the install, mount, init and config commands of the cluster are registered, each a dependency of the next, after the host's previous setup command |
| `DeployDb.Databases.AddDatabase` | program/dbcluster.go:238-262 | exactly one command is registered, creating this database after the given one, and a provisioner bound to it that has minted nothing |
| `DeployDb.Databases.AddDatabases` | program/dbcluster.go:238-262 | the whole new graph and what every provisioner then knows: one command per database, each after the one before it |
| `DeployDb.Databases.SetUpCluster` | program/dbcluster.go:103-262 | afterwards the cluster has its whole chain, postmaster then every database by name; it queued behind its host's tail and moved it, and other hosts' tails are as before |
| `DeployDb.Databases.ProvisionClusters` | program/dbcluster.go:91-264 | succeeds exactly when every cluster is self-hosted and placed, and then every cluster has its whole chain and exactly the declared databases became known |
| `DeployDb.RoleProvisioner.ProvisionRole` | program/dbcluster.go:288-331 | a mint waits for its database and the previous mint on it and becomes the newest |
| `DeployDb.Databases.ResolveGrants` | program/program.go:1274-1305 | succeeds exactly when every grant's database has a provisioner, and then every grant has a mint named by its service on its database, waiting for the command that creates it |
| `DeployDb.Databases.ClusterRoleMints` | program/program.go:1154-1164 | the newest mint of each of the cluster's databases, and nothing but newest mints |
| `DeployDb.MintsCovered` | program/program.go:839-849 | those newest mints reach every mint registered on the cluster |
| `DeployDb.Databases.MintMonitor` | program/program.go:815-860 | the monitor mint waits for the host's setup and every mint on its cluster |
| `DeployDb.Databases.Observe` | program/program.go:763-905 | every host gets its collector, configured after the monitor mint of each cluster it scrapes |
| `DeployDb.ProvisionBackups` | program/dbbackup.go:43-194 | succeeds exactly when no backup is declared or the bucket, the credential and every host exist; then every backed-up host has its tools, registered after its clusters' whole chains, the credential after the tools, and a timer after the credential for each backed-up database |
| `Deploy.DeployScope` | program/program.go:382-458 | a scope succeeds exactly when its hosts, clusters, bucket, credential, grant targets and services are all there and its role names are usable, and then its reloads, clusters, backups, mints, collectors, units and deliveries are registered |
| `Deploy.Run` | program/program.go:246-458 | the deploy succeeds exactly when the global scope comes first and every scope has all it names, grant targets being those any scope declares; then every scope is fully registered. However it ends the graph is sound, and with same-scope grants no mint comes after its cluster's monitor |
| `Deploy.TargetsSettled` | program/program.go:3127-3139 | with the global scope first, a grant's target is known when its scope is realized exactly when any scope declares it |
| `DeploySafety.CalleeReloadsBeforeCallerRestarts` | program/program.go:382-458 | in every execution the reload admitting a permitted caller at its callee finishes before any command restarting the caller starts |
| `DeploySafety.UnitPrecedesDelivery` | program/program.go:672-711 | in every execution a delivery starts after its service's unit command finished |
| `DeploySafety.DatabaseCommandsTakeTurns` | program/dbcluster.go:103-331 | setup commands of one host, and mints on one database, never overlap in any execution and run in registration order |
| `DeploySafety.ClusterRunsInOrder` | program/dbcluster.go:103-262 | after a successful deploy every cluster's commands exist and no execution runs one before its predecessors have finished |
| `DeploySafety.GrantHasItsRole` | program/program.go:1312-1400 | after a successful deploy every grant has its mint, in every execution after its database was created and, with same-scope grants, finished before any monitor mint of that cluster starts |
| `DeploySafety.CollectorComesLast` | program/program.go:763-905 | with same-scope grants, in every execution all role mints of a scraped cluster, then its monitor mint, finish before its host's collector is configured |
| `DeploySafety.BackupsComeLast` | program/dbbackup.go:122-190 | a host's backup tools start only when every command of its clusters has finished, and each backed-up database's timer only when the tools and the credential are in place |
| `DeploySafety.MonitorFollowsIff` | program/program.go:839-849 | a mint and its cluster's monitor mint never overlap exactly when the mint was registered first |
| `PkiStore.Admin.Add` | cmd/inforge/pki.go:150-206 | adding a PKI has exactly the specified effect, or the error and no effect |
| `PkiStore.Admin.Mint` | cmd/inforge/pki.go:228-278 | minting has exactly the specified effect, or the error and no effect |
| `PkiStore.Admin.ReSignLoop` | cmd/inforge/pki.go:555-585 | the loop over scopes re-signs every intermediate and retains its old certificate, or reports that one cannot be re-signed |
| `PkiStore.Admin.BeginRootRotation` | cmd/inforge/pki.go:509-600 | beginning a root overlap has exactly the specified effect, or the error and no effect |
| `PkiStore.Admin.FinalizeRootRotation` | cmd/inforge/pki.go:509-615 | finalizing has exactly the specified effect, or the error and no effect |
| `PkiLifecycle.ApplyKeepsInv` | cmd/inforge/pki.go:150-615 | every PKI command and the master-key rotation keep the store's invariant |
| `PkiLifecycle.RunKeepsInv` | cmd/inforge/pki.go:150-615 | every run of commands keeps it |
| `PkiLifecycle.FreshStoreRuns` | cmd/inforge/pki.go:77-127 | every run from a fresh store satisfies it |
| `PkiLifecycle.Custody` | cmd/inforge/pki.go:150-206 | cold roots open only for the root identity, CI-held keys only for the CI identity, and at most one previous root exists |
| `PkiLifecycle.ColdRootsStayCold` | cmd/inforge/pki.go:483-492 | after any run a cold root opens for the root identity the store was created with and for no other, so CI reaches it exactly when its recipient is that one |
| `PkiLifecycle.OverlapPairs` | cmd/inforge/pki.go:526-605 | in an overlap both generations have the same scopes and shared keys, signed by the old and the new root |
| `PkiLifecycle.RootRotationKeepsLeaves` | cmd/inforge/pki.go:494-605 | begin and finalize leave the set of leaves verifying under each scope's key unchanged |
| `PkiLifecycle.AnchoredLeafPaths` | cmd/inforge/pki.go:494-508 | a live leaf has a valid path to the current root, and in an overlap to the old root exactly while the retained intermediate lives |
| `PkiLifecycle.LeafSurvivesRun` | cmd/inforge/pki.go:526-615 | a minted leaf keeps a valid path to every later root through any run that does not re-mint its scope |
| `PkiLifecycle.LeafValidatesToBothRoots` | cmd/inforge/pki.go:526-605 | a leaf minted before an overlap validates to both roots in it |
| `PkiLifecycle.ReMintBurnsOldLeaves` | cmd/inforge/pki.go:401-439 | after a re-mint no leaf of the old intermediate verifies |
| `PkiLifecycle.OverlapIsFrozen` | cmd/inforge/pki.go:401-475 | whatever commands are tried, until the overlap is finalized no certificate and no authority key of the PKI changes |
| `PkiLifecycle.BundleAdmitsExactlyItsScopes` | cmd/inforge/pki.go:885-914 | a trust bundle admits a scope's live leaves exactly when the scope is in the trust set |
| `PkiLifecycle.BundlesAndLeavesMix` | cmd/inforge/pki.go:747-988 | bundles and leaves from different moments of a run verify each other while the bundle's intermediate lives |
| `MasterRotation.Disk.Rotate` | cmd/inforge/secret.go:349-437 | a rotation with either write failing has exactly the specified effect on the two files |
| `MasterRotation.AttemptKeepsRotating` | cmd/inforge/secret.go:349-437 | an interrupted rotation keeps all content and a state the same command resumes from |
| `MasterRotation.CrashResumable` | cmd/inforge/secret.go:349-437 | after any number of crashes, a completed re-run leaves everything under the new identity with its original content |
| `MasterRotation.RotatedContentOpens` | cmd/inforge/secret.go:349-437 | after any crashes and a completed run every secret, reserved value and CI-held key opens with the new identity to its original plaintext, and no secret with the old one |
| `MasterRotation.RotateCompletesIff` | cmd/inforge/secret.go:349-539 | from any files a run with working writes completes exactly when everything it moves opens and the PKI file is at the old or new recipient; then nothing is lost and every secret is sealed anew, and otherwise neither file changes |
| `MasterRotation.OtherRecipientRefused` | cmd/inforge/secret.go:479-539 | once the PKI file is at one new recipient, no number of runs towards another changes either file |
| `MasterRotation.ColdRootUntouchedIff` | cmd/inforge/secret.go:479-539 | a run with a fresh nonce leaves exactly the cold roots byte-identical, even when both recipients coincide; every CI-held key gets new bytes |
| `Edge.ResolvedServiceIs` | program/program.go:2153-2174 | a resolved ingress service is a declared one with its ingress's and its own host |
| `Edge.HealthPortByHostIs` | program/program.go:2495-2505 | the port of a host is some ingress's on it, and absent only if it has none |
| `NginxEdge.IngressRoutesByHost` | program/program.go:2843-2897 | the grouping loop puts exactly the routes of the services fronted on a host under it, in order |
| `NginxEdge.BackendIsOwn` | program/program.go:2521-2533 | with unique names a cross-host entry is filled with its own service's host |
| `NginxEdge.PeerIsOwn` | program/program.go:2305-2354 | with unique names each half of a split gateway is filled with the other half's host |
| `Firewall.Plan.AddService` | program/program.go:2660-2680 | a service adds exactly its listen, ACME, health and cross-host rules |
| `Firewall.FirewallPlanByHost` | program/program.go:2623-2773 | the loops build exactly the rules of services, apps, gateways, health, clusters and the mesh |
| `Firewall.PublicPlanExact` | program/program.go:2623-2773 | where health ports align, the public ports of a host are exactly those nginx listens on |
| `Firewall.PublicPlanExactIff` | program/program.go:2495-2515 | without that hypothesis the plan is exact if and only if each named health port and the listener's port are covered anyway |
| `Firewall.AgreeingIngressesAlign` | program/program.go:2495-2515 | ingresses agreeing on one health port per host align every health endpoint |
| `Firewall.MisalignedHealthIsClosed` | program/program.go:2495-2515 | two ingresses with different ports on one host leave the health listener closed |
| `Firewall.PrivatePlanExact` | program/program.go:2623-2773 | a private port is opened on a host exactly when nginx on some host of the scope dials it |
| `Firewall.ClusterPortsExact` | program/dbcluster.go:29-47 | co-located clusters get distinct ports and the plan opens exactly those |
| `Firewall.MeshPortIff` | program/program.go:2718-2740 | the mesh port is open where a callee listens, and open for nothing exactly on hosts whose members only call out |
| `Sni.ClaimsIff` | program/program.go:2876-2887 | distinct (listen, name) claims mean exactly that no two servers clash and none repeats a name |
| `Sni.CheckRoutes` | program/program.go:2876-2887 | the route check passes exactly when no (listen, name) pair is claimed twice on the host |
| `Sni.CheckAppSniCollisions` | program/program.go:2571-2603 | the app and gateway check passes exactly when their names are distinct and none is a route's name on 443 |
| `Sni.ChecksIff` | program/program.go:1960-1968 | both checks pass exactly when every pair is claimed once across routes, apps and gateways |
| `Sni.CheckEdge` | program/program.go:1906-1968 | over all hosts the deploy goes on exactly when no two TLS servers clash and no server repeats a name |
| `Sni.RepeatIsRefused` | program/program.go:2876-2887 | a server repeating its own name is refused although nothing clashes |
| `Sni.ApartForNginxIff` | program/program.go:1960-1968 | on a host that passed both checks servers are apart for nginx, which ignores case, exactly when no two names claimed on one port differ in case alone |
| `Sni.CaseTwinsPass` | program/program.go:2876-2887 | two servers whose names differ in case alone pass the check and clash for nginx |
| `Dns.LandsWhereDerivedIff` | internal/naming/naming.go:240-261 | a record lands on the name it came from exactly when that name is in the zone and not the literal at-sign |
| `Dns.LandsOnlyHere` | internal/naming/naming.go:240-261 | the record landing on a name is its zone-relative form if the name can have one, and no other |
| `Dns.ServerNamesAreDerived` | program/program.go:2965-3054 | every server name rendered on a host is derived for that host |
| `Dns.DerivedRecords` | program/program.go:2982-2997 | the loop with its seen set is the first-of-each-key deduplication |
| `Dns.CreateDnsRecords` | program/program.go:3059-3096 | creation succeeds exactly when all records are in the zone, distinct and placed, and then creates exactly them |
| `Dns.AcceptedIff` | program/program.go:2965-3096 | a scope's names are accepted exactly when each is in the zone or hidden, no record has two hosts, and every host exists |
| `Dns.DeployDns` | program/program.go:3059-3096 | the deploy accepts exactly as stated by `AcceptedIff`; then a rendered server name has a record landing on it exactly when it is in the zone and not its literal at-sign, and that record is the only one and points at the rendering host |
| `Dns.HiddenNameSlipsThrough` | program/program.go:2982-2997 | for every zone and every name outside it, one service that lists the name after its in-zone twin is accepted, the outside name rendered, and no record lands on it |
| `Dns.ResourceNameEqualIff` | program/program.go:3098-3106 | two record names get one resource name exactly when they differ in dots against dashes alone, or one is the zone itself and the other apex |
| `Dns.ResourceNamesDistinctIff` | program/program.go:3098-3106 | the resource names of the created records are distinct exactly when no two records are such a pair |
| `Dns.FoldedNamesDistinctIff` | program/program.go:3059-3096 | the created records are as many names to DNS, which ignores case, exactly when no two differ in case alone |
| `Dns.NamesThatSlip` | program/program.go:2982-3106 | concrete names for it: one outside a zone, a pair that differs in a dot, a pair that differs in case |
| `Dns.TwinsSlipThrough` | program/program.go:3059-3106 | every two names of a zone that differ in dots against dashes, or in case, can be listed by one accepted service, and are then one resource name, or one DNS name |
| `Lifecycle.DeployConvergesIff` | docs/adr/0042-update-in-place-command-lifecycle.md:38-97 | a deploy leaves the host and the recorded state at its spec exactly when it is neither a stale flip back nor a lone unit replacement |
| `Lifecycle.RunsConverge` | program/adr0042.go:5-42 | after any run of such deploys the host holds the last spec |
| `Lifecycle.RemovalCleans` | program/program.go:1883-1894 | removal leaves nothing of the service on its disk |
| `Lifecycle.RedeployIsQuiet` | program/adr0042.go:19-42 | redeploying the same spec touches nothing, whatever the new ciphertext |
| `Lifecycle.SecretsRewrittenIff` | program/program.go:1472-1500 | between secrets deploys the command is replaced exactly when descriptor or content moved, and otherwise unchanged |
| `Lifecycle.HostMoveConverges` | program/program.go:735-745 | a changed connection always converges |
| `Lifecycle.FlipBackLoses` | program/program.go:1632-1674 | for any service the run with secrets, without, with the same again ends without secrets.age and with the other descriptor |
| `Lifecycle.UnitReplaceLoses` | program/program.go:718-750 | for any service, deploying it and then forcing only its unit ends with the unit and neither descriptor nor secrets |
| `Projection.ChainIs` | internal/agent/project.go:137-147 | the chain is exactly the directories from the file's up to the base |
| `Projection.Host.MkdirOwned` | internal/agent/project.go:117-127 | every level from the directory to the base is the service user's, and none outside the base is |
| `Projection.Host.StageFile` | internal/agent/project.go:153-177 | a staged file is owned by the service user with its directories; on any error no temp remains |
| `Projection.Host.Commit` | internal/agent/project.go:86-93 | renames land every pending file, or a part of them with every other temp removed |
| `Projection.Host.ProjectFiles` | internal/agent/project.go:34-95 | succeeds exactly when the material is complete and no file-system call fails; no destination changes before everything is staged, no temp survives, and on success exactly the differing destinations carry their material |
| `Projection.Host.ProjectTwice` | internal/agent/project.go:34-95 | a second projection of the same material changes nothing |
| `Projection.MaterialLands` | internal/agent/project.go:34-95 | after success every destination holds its material and nothing else moved |
| `Projection.OwnedByServiceIff` | internal/agent/project.go:98-107 | every destination ends up the service user's exactly when the unchanged ones already were |
| `Delivery.MarshalRoundTrip` | internal/hostsecrets/hostsecrets.go:50-95 | unmarshalling the canonical form restores the blob |
| `Delivery.SameBytesIff` | internal/hostsecrets/hostsecrets.go:97-109 | canonical forms are equal exactly when blobs are, so the hash moves exactly with content |
| `Delivery.BlobFrom` | program/program.go:1511-1537 | the flat values split back along the same keys, exactly when there are as many and none is empty |
| `Delivery.DeliveredBlob` | program/program.go:1428-1470 | the blob built from the flat await is exactly the resolved material, refused exactly when a value is empty |
| `Delivery.LoadSecretsBlobs` | internal/agent/run.go:207-226 | the two artefacts merge to their union, refused exactly when they share a key |
| `Delivery.MergeMap` | internal/agent/run.go:230-250 | a merge fails exactly on a shared key and otherwise is the union |
| `PkiGrants.FileKeyInjective` | internal/grant/pki.go:33-35 | a file key determines its PKI and field |
| `PkiGrants.ResolvePkiGrants` | program/pkigrant.go:131-192 | grants resolve exactly when each is available in its scope with published lone fields, and then descriptor and blob are exactly those of the outputs |
| `PkiGrants.DeliveredIff` | program/pkigrant.go:162-190 | a PKI's certificate or key is in the blob exactly when an output of a grant on it asks for that field, and then the grant's permission publishes it |
| `PkiGrants.SigningKeyNeedsReadWrite` | internal/grant/pki.go:56-80 | a signing key reaches the host only through a read-write grant on its PKI |
| `PkiGrants.DeliveredIsOwn` | program/pkigrant.go:162-190 | what is delivered under a PKI's key is that PKI's own field |
| `PkiGrants.GrantedVariableLeads` | program/pkigrant.go:113-130 | a variable leads to the field and PKI of the last grant that claims it, never empty |
| `Boot.MeshKeysAgree` | internal/meshcert/meshcert.go:52-71 | the descriptor names exactly the keys the renewed leaf carries |
| `Boot.LeafAndGrantsDisjoint` | program/program.go:1735-1751 | grant keys never meet leaf keys |
| `Boot.RenderedResolvesIff` | program/program.go:1723-1751 | a rendered descriptor resolves against the two artefacts exactly when a leaf it names has been pushed |
| `Boot.BuildEnv` | internal/agent/env.go:35-113 | the environment is the base plus each name's value, exactly when no name is reserved and none is missing or empty |
| `Boot.RunBoot` | internal/agent/run.go:167-197 | boot reaches exec exactly when the artefacts merge, every file and name resolves and no call of the projection fails; then every wanted file can be read at its path |
| `Boot.RenderedPaths` | internal/agent/project.go:54-68 | the path variables the process gets are exactly the files' variables, in name order, with the path each key is written to |
| `Boot.NameCount` | internal/agent/env.go:35-113 | a name appears once per source that claims it: base, secrets, files |
| `Boot.DeliverAndBoot` | program/program.go:1409-1537 | from grants, secrets, descriptor and leaf to the process: it starts exactly when the grants materialize, no secret is empty or reserved, a named leaf was pushed and no call fails; then each secret has its value and each granted or leaf variable opens to its own field |
| `HostPaths.KeyUnder` | internal/agent/project.go:64-69 | a key's path below a service's directory denotes the key's own segments there, so distinct keys never share a file |
| `Template.ParseTemplate` | internal/grant/grant.go:107-138 | the parsing loop is the recursive parser |
| `Template.PrintOfParse` | internal/grant/grant.go:107-138 | printing what was parsed gives the template back, and it is canonical |
| `Template.ParseOfPrint` | internal/grant/grant.go:107-138 | parsing a printed canonical list gives it back |
| `Template.ParsesIffBraced` | internal/grant/grant.go:102-138 | parsing succeeds exactly on the brace grammar |
| `Template.Interpolate` | internal/grant/grant.go:166-180 | the loop is the segment-wise substitution |
| `Template.InterpolatesIff` | internal/grant/grant.go:166-180 | interpolation fails exactly when a referenced field is missing |
| `Template.PlaceholdersGiveSource` | internal/grant/grant.go:142-180 | giving each field its own placeholder gives the source back |
| `Template.InterpolationSplits` | internal/grant/grant.go:166-180 | interpolation distributes over concatenation |
| `Template.HasLiteral` | internal/grant/grant.go:155-162 | a canonical template has a literal exactly when it has more segments than fields |
| `Template.LoneFieldIff` | program/pkigrant.go:199-209 | a template is one field exactly when it is that placeholder and nothing else |
| `Backup.RenderOrder` | internal/dbbackup/backup.go:48-63 | rendered timestamps sort exactly in time order and distinct times differ |
| `Backup.KeyOrder` | internal/dbbackup/backup.go:48-63 | keys under a prefix sort exactly in time order |
| `Backup.PrefixesDisjoint` | internal/dbbackup/paths.go:61-73 | no key starts with the prefixes of two distinct databases |
| `Backup.ParseInvertsBuild` | internal/dbbackup/paths.go:71-93 | parsing yields a key's parts exactly when building them gives the key and all five are proper |
| `Backup.RestoreTarget` | cmd/inforge/db.go:302-324 | a restore from a key goes to the region and cluster of the database the backup was taken from, exactly when key and flags select it |
| `Backup.Bucket.Prune` | internal/dbbackup/backup.go:68-90 | a prune succeeds exactly up to 1000 surplus keys and removes exactly the oldest |
| `Backup.Bucket.RunTimer` | internal/dbbackup/backup.go:48-90 | the timer's runs have exactly the effect the retention lemmas speak of |
| `Backup.PruneKeepsNewest` | internal/dbbackup/backup.go:68-90 | a completed prune leaves exactly the newest min(n, keep) and touches nothing else |
| `Backup.DeletedAreOlder` | internal/dbbackup/backup.go:68-90 | every backup deleted is older than every backup kept |
| `Backup.LastIsNewest` | cmd/inforge/db.go:346-359 | the last listed key is the newest backup |
| `Backup.RetentionHolds` | internal/dbbackup/backup.go:55-93 | over any number of runs the count stays within keep |
| `Backup.StuckForever` | internal/dbbackup/backup.go:68-90 | past 1000 surplus keys no later run ever prunes |
| `Prelude.PreludeBranch.Write` | cmd/inforge/deploy.go:431-440 | a branch relays and counts what the writer accepts and swallows all once muted |
| `Prelude.Perform` | cmd/inforge/deploy.go:408-446 | each step of the machine that touches the writer is carried out by the relay, a branch or the printer, and leaves them as the machine says |
| `Prelude.StepKeepsInv` | cmd/inforge/deploy.go:327-446 | every step of engine, drain and caller keeps the byte accounting and the printer's exclusivity |
| `Prelude.ErrorsShownOnceIff` | cmd/inforge/deploy.go:394-405 | on a failed run without recorded failure the error stream is written exactly once in order if and only if no write, the final dump's included, was short |
| `Prelude.ErrorsNeverRepeat` | cmd/inforge/deploy.go:394-405 | at every moment the error bytes shown are a prefix of those written |
| `Prelude.LostIffShort` | cmd/inforge/deploy.go:431-440 | bytes are lost or cut off exactly when some write was short |
| `Prelude.HandleNeverOverlapsFinish` | cmd/inforge/deploy.go:380-393 | once finishing has begun the drain can no longer handle an event |
| `Prelude.StepsEnd` | cmd/inforge/deploy.go:366-393 | after the run returned every step but closing the channel brings the end nearer |
| `Prelude.ReturnsWithoutEngine` | cmd/inforge/deploy.go:366-393 | the function returns without the engine ever closing its channel |
| `RoleNames.CheckDbRoleNames` | program/program.go:1116-1146 | a scope is accepted exactly when every derived name fits and all differ |
| `RoleNames.AcceptedIffStoredAsDerived` | program/program.go:1089-1146 | accepted means exactly that stored names equal derived names and are distinct |
| `RoleNames.DashedEqualIff` | program/program.go:1080-1088 | two dash-joined pairs coincide exactly when a dashed part moved from one side to the other |
| `RoleNames.AmbiguousNames` | program/program.go:1095-1100 | concrete ambiguous pairs, both refused |

## Left out

- Cryptography, X.509 encoding, age and SHA-256: symbolic constructors; an encryption carries a nonce, so encrypting again
  gives other bytes; equal hashes mean equal contents.
- SSH, scp, the engine's API, object storage and HTTP: a command is a step with an effect and an ordering.
- The engine: its rules (start after dependencies, replace on trigger or connection change, recorded delete before
  replace, ignored properties keep their recorded value except on replace, a command is not replaced merely because one it
  waits for was) are definitions taken from ADR-0042.
- nginx, systemd and shell text: the meaning of the rendered configuration is modelled, not its bytes; sorting within a
  rendered list is not.
- Path globs: an abstract predicate.
- nginx maps: a mesh target named `default` or `include` is not treated specially, and map sources are compared as they
  are, where nginx ignores their case (`X-Mesh-Target: DDNS` reaches `ddns`, which the model refuses).
- Rendering errors of the mesh (a port below 1, a callee without paths) and dropped callers stopping the deploy.
- The passes of a deploy that register neither reloads, units, deliveries nor database commands: DNS, networks, apps,
  ingress, CrowdSec. Dependencies a consumer's secrets carry implicitly through resolved values are not edges here.
- Resource names of commands are not modelled, so a duplicate name is not an error of the graph; nor is it of the created
  DNS records, whose coinciding names `Dns.ResourceNamesDistinctIff` tells.
- Letters outside ASCII in the folding of names.
- Scope, recipient and topology strings are taken trimmed; secrets are keyed by (namespace, key) pairs.
- Clock skew beyond the modelled not-before times, and file writes that are themselves not atomic.
- DNS names other than through zone membership: service, app, host and vanity names enter already expanded.
- Exposed ports and network ranges of the firewall plan: each is read from one service or network alone.
- Rate limits, forward-route port conflicts and ssl-preread port sharing in nginx.
- JSON replaces invalid UTF-8; strings here are compared as they are. Template bytes are characters.
- Cleaning of paths: a file key with `..` or an empty segment is taken as it is; the keys inforge writes have none.
- A file where a projection needs a directory, and a failing removal of a temp; temps live in a name space of their own.
- Backups taken by hand under a prefix count like any other key; listing failures are not modelled.
- Writes of the engine after its run function returned, and a printer that blocks.
- Regular expressions of names beyond the character rules stated; YAML loading, validation, flags, reports.
- MeshPolicy.MeshPreservesPolicyIff: assumes what validation guarantees (unique schema names per set, at most 256 members per host).
- Firewall.PrivatePlanExact: assumes unique service and gateway names, because addresses are filled in by name.
- DeploySafety.MonitorFollowsIff: mints through cross-scope grants, which validation rejects, are exactly the ones it leaves unordered; `GrantHasItsRole` and `CollectorComesLast` therefore ask for a graph without late mints, which `Run` gives when grants stay in scope.
- Boot.DeliverAndBoot: assumes a pushed leaf.age is one the renewal wrote: its three keys, none of them empty.
- Deploy.Run: assumes distinct scope keys: `global` and the keys of the region table. A missing deploy user or private key, an unregistered provider and an unparsable backup interval also refuse a deploy and are not modelled; a preview, which passes without the backup credential, is not either.
- Lifecycle.RunsConverge: the two failing situations are excluded at every step; both can be read off the recorded state before the deploy.
