/** What every run of the PKI commands keeps: custody, the overlap shape, and every live leaf. */
module PkiLifecycle {
  import opened Common
  import opened Crypto
  import opened PkiStore
  import M = MasterRotation

  // ---- The invariant ----

  ghost predicate RootOk(m: Material, owner: Recipient, st: State) {
    && SelfSigned(m.cert) && m.cert.key < st.nextKey
    && Seals(m.key, PrivateKey(m.cert.key), owner)
    && m.cert.notBefore <= st.clock
  }

  /** An intermediate the current root issued, its private key sealed to CI. */
  ghost predicate IntermediateOk(m: Material, root: Cert, st: State) {
    && m.cert.isCA && Issued(m.cert, root) && m.cert.key < st.nextKey
    && Seals(m.key, PrivateKey(m.cert.key), st.store.recipient)
    && m.cert.notBefore <= st.clock
    && m.cert.notAfter <= root.notAfter && m.cert.notAfter <= st.clock + INTERMEDIATE_VALIDITY
  }

  /** The retained twin of an intermediate: same subject and public key, issued by the old root, no longer-lived. */
  ghost predicate TwinOk(twin: Cert, inter: Cert, oldRoot: Cert, clock: int) {
    && Issued(twin, oldRoot) && twin.isCA && twin.key == inter.key && twin.subject == inter.subject
    && twin.notBefore <= clock && twin.notAfter <= inter.notAfter && twin.notAfter <= oldRoot.notAfter
  }

  ghost predicate OverlapOk(p: Pki, st: State) {
    && |p.previousRoots| == 1
    && RootOk(p.previousRoots[0], st.store.rootRecipient, st)
    && p.previousRoots[0].cert.key != p.root.cert.key
    && p.previousIntermediates.Keys == p.intermediates.Keys
    && forall s | s in p.intermediates ::
         && |p.previousIntermediates[s]| == 1
         && TwinOk(p.previousIntermediates[s][0], p.intermediates[s].cert, p.previousRoots[0].cert, st.clock)
  }

  /** No two authorities share a key: not two scopes, not a scope and a root. */
  ghost predicate DistinctKeys(p: Pki) {
    && (forall s, t | s in p.intermediates && t in p.intermediates && s != t ::
          p.intermediates[s].cert.key != p.intermediates[t].cert.key)
    && (forall s | s in p.intermediates :: p.intermediates[s].cert.key != p.root.cert.key)
    && (forall s, r | s in p.intermediates && r in p.previousRoots :: p.intermediates[s].cert.key != r.cert.key)
  }

  ghost predicate PkiOk(p: Pki, st: State) {
    && RootOk(p.root, st.store.RootKeyRecipient(p.topology), st)
    && (p.topology.RootOnly? ==> p.intermediates == map[])
    && (forall s | s in p.intermediates :: IntermediateOk(p.intermediates[s], p.root.cert, st))
    && DistinctKeys(p)
    && (if p.InOverlap() then p.topology.TwoTier? && OverlapOk(p, st) else p.previousIntermediates == map[])
  }

  ghost predicate Inv(st: State) {
    forall n | n in st.store.pkis :: PkiOk(st.store.pkis[n], st)
  }

  // ---- Runs ----

  /** One command; `elapsed` seconds have passed since the previous one. */
  datatype Op =
    | Add(elapsed: nat, name: string, topologyFlag: string, scope: string)
    | Mint(elapsed: nat, name: string, scope: string, rootIdentity: Option<Recipient>)
    | ReMint(elapsed: nat, name: string, scope: string, rootIdentity: Option<Recipient>)
    | Begin(elapsed: nat, name: string, rootIdentity: Option<Recipient>)
    | Finalize(elapsed: nat, name: string, rootIdentity: Option<Recipient>)
    | Rekey(elapsed: nat, identity: Recipient, current: Recipient, recipient: Recipient, nonce: nat)

  function Later(st: State, elapsed: nat): State {
    st.(clock := st.clock + elapsed)
  }

  function Attempt(st: State, op: Op): Result<State> {
    var now := Later(st, op.elapsed);
    match op
    case Add(_, n, t, s) => AddSpec(now, n, t, s)
    case Mint(_, n, s, id) => MintSpec(now, n, s, id, false)
    case ReMint(_, n, s, id) => MintSpec(now, n, s, id, true)
    case Begin(_, n, id) => BeginSpec(now, n, id)
    case Finalize(_, n, id) => FinalizeSpec(now, n, id)
    case Rekey(_, id, cur, r, nonce) =>
      match M.RekeyStore(st.store, id, cur, r, nonce)
      case Ok(s) => Ok(now.(store := s))
      case Err(e) => Err(e)
  }

  /** A refused command leaves the store as it was. */
  function Apply(st: State, op: Op): State {
    match Attempt(st, op)
    case Ok(next) => next
    case Err(_) => Later(st, op.elapsed)
  }

  function Run(st: State, ops: seq<Op>): State
    decreases |ops|
  {
    if ops == [] then st else Run(Apply(st, ops[0]), ops[1..])
  }

  // ---- Preservation, command by command ----

  /** The environment of a PKI may only grow: later clock, more keys, same recipients. */
  lemma PkiOkLater(p: Pki, st: State, st': State)
    requires PkiOk(p, st)
    requires st'.clock >= st.clock && st'.nextKey >= st.nextKey
    requires st'.store.rootRecipient == st.store.rootRecipient && st'.store.recipient == st.store.recipient
    ensures PkiOk(p, st')
  {
  }

  lemma PutKeepsOthers(st: State, name: string, p: Pki, keys: nat)
    requires Inv(st) && PkiOk(p, Put(st, name, p, keys))
    ensures Inv(Put(st, name, p, keys))
  {
    var st' := Put(st, name, p, keys);
    forall n | n in st'.store.pkis ensures PkiOk(st'.store.pkis[n], st') {
      if n != name { PkiOkLater(st.store.pkis[n], st, st'); }
    }
  }

  lemma LaterKeepsInv(st: State, elapsed: nat)
    requires Inv(st)
    ensures Inv(Later(st, elapsed))
  {
    forall n | n in st.store.pkis ensures PkiOk(st.store.pkis[n], Later(st, elapsed)) {
      PkiOkLater(st.store.pkis[n], st, Later(st, elapsed));
    }
  }

  lemma AddKeepsInv(st: State, name: string, topology: string, scope: string)
    requires Inv(st) && AddSpec(st, name, topology, scope).Ok?
    ensures Inv(AddSpec(st, name, topology, scope).value)
  {
    var st' := AddSpec(st, name, topology, scope).value;
    PutKeepsOthers(st, name, st'.store.pkis[name], 1);
  }

  lemma MintKeepsInv(st: State, name: string, scope: string, id: Option<Recipient>, existing: bool)
    requires Inv(st) && MintSpec(st, name, scope, id, existing).Ok?
    ensures Inv(MintSpec(st, name, scope, id, existing).value)
  {
    MintedOk(st, name, scope, id, existing);
    PutKeepsOthers(st, name, MintSpec(st, name, scope, id, existing).value.store.pkis[name], 1);
  }

  lemma MintedOk(st: State, name: string, scope: string, id: Option<Recipient>, existing: bool)
    requires Inv(st) && MintSpec(st, name, scope, id, existing).Ok?
    ensures var p' := MintSpec(st, name, scope, id, existing).value.store.pkis[name]; PkiOk(p', Put(st, name, p', 1))
  {
    var p := st.store.pkis[name];
    var p' := MintSpec(st, name, scope, id, existing).value.store.pkis[name];
    var st' := Put(st, name, p', 1);
    PkiOkLater(p, st, st');
    OthersBelow(p, st);
    WithIntermediate(p, st', scope, p'.intermediates[scope]);
  }

  /** Every key of a sound PKI was handed out before. */
  lemma OthersBelow(p: Pki, st: State)
    requires PkiOk(p, st)
    ensures p.root.cert.key < st.nextKey && forall s | s in p.intermediates :: p.intermediates[s].cert.key < st.nextKey
  {
  }

  lemma WithIntermediate(p: Pki, st: State, scope: string, m: Material)
    requires PkiOk(p, st) && p.topology.TwoTier? && !p.InOverlap() && IntermediateOk(m, p.root.cert, st)
    requires m.cert.key != p.root.cert.key
    requires forall s | s in p.intermediates :: p.intermediates[s].cert.key != m.cert.key
    ensures PkiOk(p.(intermediates := p.intermediates[scope := m]), st)
  {
  }

  /** Re-signing keeps subject, key and ciphertext, and outlives the certificate it replaces. */
  lemma ReSignedOk(m: Material, oldRoot: Cert, newRoot: Cert, st: State, st': State)
    requires IntermediateOk(m, oldRoot, st) && newRoot == GenerateRoot(newRoot.subject, newRoot.key, st.clock)
    requires st'.clock == st.clock && st'.nextKey >= st.nextKey && st'.store.recipient == st.store.recipient
    ensures var r := ReSignIntermediate(newRoot, newRoot.key, m.cert, st.clock);
      && r.Ok? && IntermediateOk(m.(cert := r.value), newRoot, st')
      && TwinOk(m.cert, r.value, oldRoot, st.clock)
  {
  }

  lemma BegunScopes(st: State, name: string, id: Option<Recipient>)
    requires Inv(st) && BeginSpec(st, name, id).Ok?
    ensures var p, p' := st.store.pkis[name], BeginSpec(st, name, id).value.store.pkis[name];
      && p'.intermediates.Keys == p.intermediates.Keys == p'.previousIntermediates.Keys
      && forall s | s in p.intermediates ::
           && IntermediateOk(p'.intermediates[s], p'.root.cert, Put(st, name, p', 1))
           && p'.intermediates[s].cert.key == p.intermediates[s].cert.key
           && p'.previousIntermediates[s] == [p.intermediates[s].cert]
           && TwinOk(p.intermediates[s].cert, p'.intermediates[s].cert, p.root.cert, st.clock)
  {
    var p := st.store.pkis[name];
    var p' := BeginSpec(st, name, id).value.store.pkis[name];
    forall s | s in p.intermediates
      ensures IntermediateOk(p'.intermediates[s], p'.root.cert, Put(st, name, p', 1))
      ensures p'.intermediates[s].cert.key == p.intermediates[s].cert.key
      ensures p'.previousIntermediates[s] == [p.intermediates[s].cert]
      ensures TwinOk(p.intermediates[s].cert, p'.intermediates[s].cert, p.root.cert, st.clock)
    {
      ReSignedOk(p.intermediates[s], p.root.cert, p'.root.cert, st, Put(st, name, p', 1));
    }
  }

  lemma BeginKeepsInv(st: State, name: string, id: Option<Recipient>)
    requires Inv(st) && BeginSpec(st, name, id).Ok?
    ensures Inv(BeginSpec(st, name, id).value)
  {
    BegunOk(st, name, id);
    PutKeepsOthers(st, name, BeginSpec(st, name, id).value.store.pkis[name], 1);
  }

  lemma BegunOk(st: State, name: string, id: Option<Recipient>)
    requires Inv(st) && BeginSpec(st, name, id).Ok?
    ensures var p' := BeginSpec(st, name, id).value.store.pkis[name]; PkiOk(p', Put(st, name, p', 1))
  {
    var p, p' := st.store.pkis[name], BeginSpec(st, name, id).value.store.pkis[name];
    var st' := Put(st, name, p', 1);
    BegunScopes(st, name, id);
    OthersBelow(p, st);
    KeysStayApart(p, p');
    PkiOkLater(p, st, st');
    assert OverlapOk(p', st');
  }

  /** A fresh root beside the old one, every intermediate on its own key. */
  lemma KeysStayApart(p: Pki, p': Pki)
    requires DistinctKeys(p) && p'.previousRoots == [p.root] && p'.intermediates.Keys == p.intermediates.Keys
    requires forall s | s in p.intermediates :: p'.intermediates[s].cert.key == p.intermediates[s].cert.key
    requires forall s | s in p.intermediates :: p.intermediates[s].cert.key != p'.root.cert.key
    ensures DistinctKeys(p')
  {
  }

  lemma FinalizeKeepsInv(st: State, name: string, id: Option<Recipient>)
    requires Inv(st) && FinalizeSpec(st, name, id).Ok?
    ensures Inv(FinalizeSpec(st, name, id).value)
  {
    var p' := FinalizeSpec(st, name, id).value.store.pkis[name];
    PkiOkLater(st.store.pkis[name], st, Put(st, name, p', 0));
    WithoutOverlap(st.store.pkis[name], Put(st, name, p', 0));
    PutKeepsOthers(st, name, p', 0);
  }

  lemma WithoutOverlap(p: Pki, st: State)
    requires PkiOk(p, st)
    ensures PkiOk(p.(previousRoots := [], previousIntermediates := map[]), st)
  {
  }

  lemma RekeyOneKeepsOk(p: Pki, st: State, st': State, id: Recipient, nonce: nat)
    requires PkiOk(p, st) && M.OpensCiHeld(p, id)
    requires st'.clock >= st.clock && st'.nextKey == st.nextKey
    requires st'.store.rootRecipient == st.store.rootRecipient
    ensures PkiOk(M.RekeyPki(p, id, st'.store.recipient, nonce), st')
  {
    var p' := M.RekeyPki(p, id, st'.store.recipient, nonce);
    RekeyedKeepsShape(p, st, st', p');
    RekeyedMaterialOk(p, st, st', id, nonce);
  }

  /** The keys are sealed to CI anew; nothing else of an authority changes. */
  lemma RekeyedMaterialOk(p: Pki, st: State, st': State, id: Recipient, nonce: nat)
    requires PkiOk(p, st) && M.OpensCiHeld(p, id)
    requires st'.clock >= st.clock && st'.nextKey == st.nextKey
    requires st'.store.rootRecipient == st.store.rootRecipient
    ensures var p' := M.RekeyPki(p, id, st'.store.recipient, nonce);
      && RootOk(p'.root, st'.store.RootKeyRecipient(p'.topology), st')
      && forall s | s in p'.intermediates :: IntermediateOk(p'.intermediates[s], p'.root.cert, st')
  {
    var p' := M.RekeyPki(p, id, st'.store.recipient, nonce);
    forall s | s in p'.intermediates ensures IntermediateOk(p'.intermediates[s], p'.root.cert, st') {
      assert IntermediateOk(p.intermediates[s], p.root.cert, st);
    }
  }

  ghost predicate SameCerts(p: Pki, p': Pki) {
    && p'.topology == p.topology && p'.root.cert == p.root.cert && p'.intermediates.Keys == p.intermediates.Keys
    && (forall s | s in p.intermediates :: p'.intermediates[s].cert == p.intermediates[s].cert)
    && p'.previousRoots == p.previousRoots && p'.previousIntermediates == p.previousIntermediates
  }

  /** Pairing and distinctness depend on certificates alone. */
  lemma RekeyedKeepsShape(p: Pki, st: State, st': State, p': Pki)
    requires PkiOk(p, st) && SameCerts(p, p') && st'.clock >= st.clock && st'.nextKey >= st.nextKey
    requires st'.store.rootRecipient == st.store.rootRecipient
    ensures DistinctKeys(p') && (p.InOverlap() ==> p'.topology.TwoTier? && OverlapOk(p', st'))
  {
    if p.InOverlap() { OverlapLater(p, st, st', p'); }
  }

  lemma OverlapLater(p: Pki, st: State, st': State, p': Pki)
    requires OverlapOk(p, st) && SameCerts(p, p') && st'.clock >= st.clock && st'.nextKey >= st.nextKey
    requires st'.store.rootRecipient == st.store.rootRecipient
    ensures OverlapOk(p', st')
  {
    forall s | s in p'.intermediates ensures
      TwinOk(p'.previousIntermediates[s][0], p'.intermediates[s].cert, p'.previousRoots[0].cert, st'.clock)
    {
      assert TwinOk(p.previousIntermediates[s][0], p.intermediates[s].cert, p.previousRoots[0].cert, st.clock);
    }
  }

  lemma RekeyKeepsInv(st: State, op: Op)
    requires Inv(st) && op.Rekey? && Attempt(st, op).Ok?
    ensures Inv(Attempt(st, op).value)
  {
    var st' := Attempt(st, op).value;
    if st.store.recipient == op.recipient {
      LaterKeepsInv(st, op.elapsed);
    } else {
      forall n | n in st'.store.pkis ensures PkiOk(st'.store.pkis[n], st') {
        RekeyOneKeepsOk(st.store.pkis[n], st, st', op.identity, op.nonce);
      }
    }
  }

  lemma ApplyKeepsInv(st: State, op: Op)
    requires Inv(st)
    ensures Inv(Apply(st, op))
  {
    var now := Later(st, op.elapsed);
    LaterKeepsInv(st, op.elapsed);
    if Attempt(st, op).Ok? {
      match op
      case Add(_, n, t, s) => AddKeepsInv(now, n, t, s);
      case Mint(_, n, s, id) => MintKeepsInv(now, n, s, id, false);
      case ReMint(_, n, s, id) => MintKeepsInv(now, n, s, id, true);
      case Begin(_, n, id) => BeginKeepsInv(now, n, id);
      case Finalize(_, n, id) => FinalizeKeepsInv(now, n, id);
      case Rekey(_, _, _, _, _) => RekeyKeepsInv(st, op);
    }
  }

  /** Every run from a sound store stays sound; the freshly initialised store is sound. */
  lemma {:induction false} RunKeepsInv(st: State, ops: seq<Op>)
    requires Inv(st)
    ensures Inv(Run(st, ops))
    decreases |ops|
  {
    if ops != [] {
      ApplyKeepsInv(st, ops[0]);
      RunKeepsInv(Apply(st, ops[0]), ops[1..]);
    }
  }

  lemma FreshStoreRuns(rootRecipient: Recipient, recipient: Recipient, clock: int, ops: seq<Op>)
    ensures Inv(Run(State(Store(rootRecipient, recipient, map[]), 0, clock), ops))
  {
    RunKeepsInv(State(Store(rootRecipient, recipient, map[]), 0, clock), ops);
  }

  // ---- Custody ----

  /** Who can open what, after any run: cold roots only the root identity, CI-held keys only the CI identity. */
  lemma Custody(st: State, n: string, id: Recipient)
    requires Inv(st) && n in st.store.pkis
    ensures var p := st.store.pkis[n];
      && (p.topology.TwoTier? ==> (Decrypt(p.root.key, id).Some? <==> id == st.store.rootRecipient))
      && (p.topology.RootOnly? ==> (Decrypt(p.root.key, id).Some? <==> id == st.store.recipient))
      && (forall r | r in p.previousRoots :: Decrypt(r.key, id).Some? <==> id == st.store.rootRecipient)
      && (forall s | s in p.intermediates :: Decrypt(p.intermediates[s].key, id).Some? <==> id == st.store.recipient)
      && |p.previousRoots| <= 1
  {
  }

  lemma {:induction false} RootRecipientIsFixed(st: State, ops: seq<Op>)
    ensures Run(st, ops).store.rootRecipient == st.store.rootRecipient
    decreases |ops|
  {
    if ops != [] { RootRecipientIsFixed(Apply(st, ops[0]), ops[1..]); }
  }

  /** Whatever is run, a cold root opens with the root identity the store was created with and no other; so CI reaches
      it exactly when CI's recipient by then is that one. */
  lemma ColdRootsStayCold(st: State, ops: seq<Op>, n: string, id: Recipient)
    requires Inv(st) && n in Run(st, ops).store.pkis && Run(st, ops).store.pkis[n].topology.TwoTier?
    ensures Decrypt(Run(st, ops).store.pkis[n].root.key, id).Some? <==> id == st.store.rootRecipient
  {
    RunKeepsInv(st, ops);
    RootRecipientIsFixed(st, ops);
    Custody(Run(st, ops), n, id);
  }

  /** During an overlap the two generations pair up: same scopes, same keys, old root and new root as issuers. */
  lemma OverlapPairs(st: State, n: string)
    requires Inv(st) && n in st.store.pkis && st.store.pkis[n].InOverlap()
    ensures var p := st.store.pkis[n];
      && |p.previousRoots| == 1 && p.previousIntermediates.Keys == p.intermediates.Keys
      && p.previousRoots[0].cert.key != p.root.cert.key
      && forall s | s in p.intermediates ::
           && |p.previousIntermediates[s]| == 1
           && p.previousIntermediates[s][0].key == p.intermediates[s].cert.key
           && p.previousIntermediates[s][0].signer == p.previousRoots[0].cert.key
           && p.intermediates[s].cert.signer == p.root.cert.key
  {
    var p := st.store.pkis[n];
    assert PkiOk(p, st) && OverlapOk(p, st);
  }

  // ---- Live leaves ----

  /** A mesh leaf is minted by unsealing the scope's intermediate key with the CI identity. */
  function MintLeaf(st: State, n: string, scope: string, ciIdentity: Recipient, service: string): Result<Cert> {
    if n !in st.store.pkis then Err("pki not found")
    else if st.store.pkis[n].topology != TwoTier then Err("mesh leaves require two-tier")
    else if scope !in st.store.pkis[n].intermediates then Err("no intermediate for scope")
    else
      var m := st.store.pkis[n].intermediates[scope];
      match Decrypt(m.key, ciIdentity)
      case Some(PrivateKey(k)) => GenerateLeaf(m.cert, k, scope + "/" + service, st.nextKey, st.clock)
      case _ => Err("cannot decrypt intermediate key")
  }

  ghost predicate HasScope(st: State, n: string, scope: string) {
    n in st.store.pkis && scope in st.store.pkis[n].intermediates
  }

  function InterOf(st: State, n: string, scope: string): Cert
    requires HasScope(st, n, scope)
  {
    st.store.pkis[n].intermediates[scope].cert
  }

  /** The leaf verifies against the scope's intermediate public key and does not outlive that certificate. */
  ghost predicate Anchored(st: State, n: string, scope: string, leaf: Cert) {
    && HasScope(st, n, scope)
    && Issued(leaf, InterOf(st, n, scope))
    && leaf.notAfter <= InterOf(st, n, scope).notAfter
  }

  lemma MintedLeafAnchored(st: State, n: string, scope: string, ciIdentity: Recipient, service: string)
    requires Inv(st) && MintLeaf(st, n, scope, ciIdentity, service).Ok?
    ensures Anchored(st, n, scope, MintLeaf(st, n, scope, ciIdentity, service).value)
    ensures ciIdentity == st.store.recipient
    ensures LiveAt(MintLeaf(st, n, scope, ciIdentity, service).value, st.clock)
  {
    assert IntermediateOk(st.store.pkis[n].intermediates[scope], st.store.pkis[n].root.cert, st);
  }

  /** Same subject and public key, living at least as long: whatever `a` vouched for, `b` does too. */
  predicate SameAnchor(a: Cert, b: Cert) {
    a.isCA && b.isCA && a.key == b.key && a.subject == b.subject && a.notAfter <= b.notAfter
  }

  lemma BeginKeepsAnchor(st: State, n: string, id: Option<Recipient>, scope: string)
    requires Inv(st) && BeginSpec(st, n, id).Ok? && scope in st.store.pkis[n].intermediates
    ensures SameAnchor(InterOf(st, n, scope), BeginSpec(st, n, id).value.store.pkis[n].intermediates[scope].cert)
  {
    var p := st.store.pkis[n];
    var st' := BeginSpec(st, n, id).value;
    assert IntermediateOk(p.intermediates[scope], p.root.cert, st);
    ReSignedOk(p.intermediates[scope], p.root.cert, st'.store.pkis[n].root.cert, st, st');
  }

  lemma RotationScopes(st: State, op: Op, n: string)
    requires op.Begin? || op.Finalize?
    ensures n in st.store.pkis <==> n in Apply(st, op).store.pkis
    ensures n in st.store.pkis ==>
      st.store.pkis[n].intermediates.Keys == Apply(st, op).store.pkis[n].intermediates.Keys
    ensures n in st.store.pkis && (op.Finalize? || op.name != n || Attempt(st, op).Err?) ==>
      st.store.pkis[n].intermediates == Apply(st, op).store.pkis[n].intermediates
  {
  }

  lemma RotationKeepsAnchor(st: State, op: Op, n: string, scope: string)
    requires Inv(st) && (op.Begin? || op.Finalize?) && HasScope(st, n, scope)
    ensures HasScope(Apply(st, op), n, scope)
    ensures SameAnchor(InterOf(st, n, scope), InterOf(Apply(st, op), n, scope))
  {
    RotationScopes(st, op, n);
    assert IntermediateOk(st.store.pkis[n].intermediates[scope], st.store.pkis[n].root.cert, st);
    if op.Begin? && op.name == n && Attempt(st, op).Ok? {
      LaterKeepsInv(st, op.elapsed);
      BeginKeepsAnchor(Later(st, op.elapsed), n, op.rootIdentity, scope);
    }
  }

  /** Beginning or finalizing any root rotation changes no intermediate's name or key: the same leaves verify. */
  lemma RootRotationKeepsLeaves(st: State, op: Op, n: string, scope: string, leaf: Cert)
    requires Inv(st) && (op.Begin? || op.Finalize?)
    ensures HasScope(st, n, scope) <==> HasScope(Apply(st, op), n, scope)
    ensures HasScope(st, n, scope) ==>
      (Issued(leaf, InterOf(st, n, scope)) <==> Issued(leaf, InterOf(Apply(st, op), n, scope)))
    ensures Anchored(st, n, scope, leaf) ==> Anchored(Apply(st, op), n, scope, leaf)
  {
    RotationScopes(st, op, n);
    if HasScope(st, n, scope) { RotationKeepsAnchor(st, op, n, scope); }
  }

  /** Only a re-mint of that very scope can unanchor a leaf. */
  lemma ApplyKeepsAnchored(st: State, op: Op, n: string, scope: string, leaf: Cert)
    requires Inv(st) && Anchored(st, n, scope, leaf)
    requires !(op.ReMint? && op.name == n && op.scope == scope)
    ensures Anchored(Apply(st, op), n, scope, leaf)
  {
    if op.Begin? || op.Finalize? {
      RootRotationKeepsLeaves(st, op, n, scope, leaf);
    } else {
      OthersKeepAnchored(st, op, n, scope, leaf);
    }
  }

  lemma OthersKeepAnchored(st: State, op: Op, n: string, scope: string, leaf: Cert)
    requires Inv(st) && Anchored(st, n, scope, leaf) && !op.Begin? && !op.Finalize?
    requires !(op.ReMint? && op.name == n && op.scope == scope)
    ensures Anchored(Apply(st, op), n, scope, leaf)
  {
    if Attempt(st, op).Ok? { OthersKeepCert(st, op, n, scope); }
  }

  /** Adding, minting elsewhere and master-key rotation leave a scope's certificate as it is. */
  lemma OthersKeepCert(st: State, op: Op, n: string, scope: string)
    requires Inv(st) && HasScope(st, n, scope) && !op.Begin? && !op.Finalize?
    requires !(op.ReMint? && op.name == n && op.scope == scope)
    ensures HasScope(Apply(st, op), n, scope) && InterOf(Apply(st, op), n, scope) == InterOf(st, n, scope)
  {
    if op.Rekey? { RekeyKeepsCert(st, op, n, scope); } else { EditKeepsCert(st, op, n, scope); }
  }

  lemma RekeyKeepsCert(st: State, op: Op, n: string, scope: string)
    requires op.Rekey? && HasScope(st, n, scope)
    ensures HasScope(Apply(st, op), n, scope) && InterOf(Apply(st, op), n, scope) == InterOf(st, n, scope)
  {
  }

  lemma EditKeepsCert(st: State, op: Op, n: string, scope: string)
    requires (op.Add? || op.Mint? || op.ReMint?) && HasScope(st, n, scope)
    requires !(op.ReMint? && op.name == n && op.scope == scope)
    ensures HasScope(Apply(st, op), n, scope) && InterOf(Apply(st, op), n, scope) == InterOf(st, n, scope)
  {
  }

  ghost predicate NoReMint(ops: seq<Op>, n: string, scope: string) {
    forall op | op in ops :: !(op.ReMint? && op.name == n && op.scope == scope)
  }

  lemma {:induction false} RunKeepsAnchored(st: State, ops: seq<Op>, n: string, scope: string, leaf: Cert)
    requires Inv(st) && Anchored(st, n, scope, leaf) && NoReMint(ops, n, scope)
    ensures Anchored(Run(st, ops), n, scope, leaf)
    decreases |ops|
  {
    if ops != [] {
      assert ops[0] in ops;
      ApplyKeepsInv(st, ops[0]);
      ApplyKeepsAnchored(st, ops[0], n, scope, leaf);
      RunKeepsAnchored(Apply(st, ops[0]), ops[1..], n, scope, leaf);
    }
  }

  /** An anchored live leaf has a valid path to the current root, and in an overlap to the old root
      exactly as long as the retained old intermediate is itself unexpired. */
  lemma AnchoredLeafPaths(st: State, n: string, scope: string, leaf: Cert, t: int)
    requires Inv(st) && Anchored(st, n, scope, leaf) && LiveAt(leaf, t) && st.clock <= t
    ensures var p := st.store.pkis[n];
      && ValidPath(leaf, p.intermediates[scope].cert, p.root.cert, t)
      && (p.InOverlap() ==>
            (ValidPath(leaf, p.previousIntermediates[scope][0], p.previousRoots[0].cert, t)
             <==> t <= p.previousIntermediates[scope][0].notAfter))
  {
    var p := st.store.pkis[n];
    assert PkiOk(p, st) && IntermediateOk(p.intermediates[scope], p.root.cert, st);
    if p.InOverlap() {
      assert OverlapOk(p, st);
      assert TwinOk(p.previousIntermediates[scope][0], p.intermediates[scope].cert, p.previousRoots[0].cert, st.clock);
    }
  }

  /** Whole runs: a leaf minted at any moment keeps a valid path to the root of every later moment of its life,
      through any number of root rotations and master-key rotations, unless its own scope is re-minted. */
  lemma LeafSurvivesRun(st: State, ops: seq<Op>, n: string, scope: string, ciIdentity: Recipient, service: string,
                        t: int)
    requires Inv(st) && MintLeaf(st, n, scope, ciIdentity, service).Ok? && NoReMint(ops, n, scope)
    requires LiveAt(MintLeaf(st, n, scope, ciIdentity, service).value, t) && Run(st, ops).clock <= t
    ensures HasScope(Run(st, ops), n, scope)
    ensures var p := Run(st, ops).store.pkis[n];
      ValidPath(MintLeaf(st, n, scope, ciIdentity, service).value, p.intermediates[scope].cert, p.root.cert, t)
  {
    var leaf := MintLeaf(st, n, scope, ciIdentity, service).value;
    MintedLeafAnchored(st, n, scope, ciIdentity, service);
    RunKeepsInv(st, ops);
    RunKeepsAnchored(st, ops, n, scope, leaf);
    AnchoredLeafPaths(Run(st, ops), n, scope, leaf, t);
  }

  lemma BeginRetains(st: State, begin: Op, n: string, scope: string)
    requires Inv(st) && begin.Begin? && begin.name == n && Attempt(st, begin).Ok? && HasScope(st, n, scope)
    ensures n in Apply(st, begin).store.pkis
    ensures var p := Apply(st, begin).store.pkis[n];
      && p.InOverlap() && p.previousRoots == [st.store.pkis[n].root]
      && scope in p.previousIntermediates && p.previousIntermediates[scope] == [InterOf(st, n, scope)]
  {
  }

  /** A leaf minted before the overlap validates to both roots all through the overlap. */
  lemma LeafValidatesToBothRoots(st: State, begin: Op, n: string, scope: string, leaf: Cert, t: int)
    requires Inv(st) && begin.Begin? && begin.name == n && Attempt(st, begin).Ok?
    requires Anchored(st, n, scope, leaf) && LiveAt(leaf, t) && Apply(st, begin).clock <= t
    ensures var p := Apply(st, begin).store.pkis[n];
      && p.InOverlap() && scope in p.intermediates && scope in p.previousIntermediates
      && ValidPath(leaf, p.previousIntermediates[scope][0], p.previousRoots[0].cert, t)
      && ValidPath(leaf, p.intermediates[scope].cert, p.root.cert, t)
      && p.previousRoots == [st.store.pkis[n].root]
  {
    ApplyKeepsInv(st, begin);
    RootRotationKeepsLeaves(st, begin, n, scope, leaf);
    BeginRetains(st, begin, n, scope);
    AnchoredLeafPaths(Apply(st, begin), n, scope, leaf, t);
  }

  /** A successful re-mint burns the old key: no leaf of the old intermediate verifies against the new one. */
  lemma ReMintBurnsOldLeaves(st: State, op: Op, leaf: Cert)
    requires Inv(st) && op.ReMint? && Attempt(st, op).Ok?
    requires HasScope(st, op.name, op.scope) && Issued(leaf, InterOf(st, op.name, op.scope))
    ensures HasScope(Apply(st, op), op.name, op.scope)
    ensures !Issued(leaf, InterOf(Apply(st, op), op.name, op.scope))
  {
    assert IntermediateOk(st.store.pkis[op.name].intermediates[op.scope], st.store.pkis[op.name].root.cert, st);
  }

  /** The two PKIs differ at most in who holds their keys and how those are encrypted. */
  ghost predicate SameCertificates(a: Pki, b: Pki) {
    && a.topology == b.topology && a.root.cert == b.root.cert && a.previousRoots == b.previousRoots
    && a.previousIntermediates == b.previousIntermediates && a.intermediates.Keys == b.intermediates.Keys
    && forall s | s in a.intermediates :: a.intermediates[s].cert == b.intermediates[s].cert
  }

  lemma RekeyKeepsCertificates(p: Pki, id: Recipient, recipient: Recipient, nonce: nat)
    requires M.OpensCiHeld(p, id) && (p.InOverlap() ==> p.topology.TwoTier?)
    ensures SameCertificates(p, M.RekeyPki(p, id, recipient, nonce))
  {
  }

  lemma StepKeepsOverlap(st: State, op: Op, n: string)
    requires Inv(st) && n in st.store.pkis && st.store.pkis[n].InOverlap() && !(op.Finalize? && op.name == n)
    ensures n in Apply(st, op).store.pkis && SameCertificates(st.store.pkis[n], Apply(st, op).store.pkis[n])
  {
    if op.Rekey? {
      RekeyKeepsOverlap(st, op, n);
    } else {
      OverlapRefuses(st, op, n);
    }
  }

  lemma RekeyKeepsOverlap(st: State, op: Op, n: string)
    requires n in st.store.pkis && PkiOk(st.store.pkis[n], st) && st.store.pkis[n].InOverlap() && op.Rekey?
    ensures n in Apply(st, op).store.pkis && SameCertificates(st.store.pkis[n], Apply(st, op).store.pkis[n])
  {
    if M.RekeyStore(st.store, op.identity, op.current, op.recipient, op.nonce).Ok?
      && st.store.recipient != op.recipient {
      RekeyKeepsCertificates(st.store.pkis[n], op.identity, op.recipient, op.nonce);
    }
  }

  /** Adding, minting and beginning are refused for a PKI in an overlap, and leave it alone for any other. */
  lemma OverlapRefuses(st: State, op: Op, n: string)
    requires n in st.store.pkis && st.store.pkis[n].InOverlap() && !op.Rekey? && !(op.Finalize? && op.name == n)
    ensures n in Apply(st, op).store.pkis && Apply(st, op).store.pkis[n] == st.store.pkis[n]
  {
  }

  /** The overlap guard, over any run: until the rotation is finalized no certificate and no authority key of the PKI
      changes, so both generations stay paired however many commands are tried. */
  lemma {:induction false} OverlapIsFrozen(st: State, ops: seq<Op>, n: string)
    requires Inv(st) && n in st.store.pkis && st.store.pkis[n].InOverlap()
    requires forall i | 0 <= i < |ops| :: !(ops[i].Finalize? && ops[i].name == n)
    ensures n in Run(st, ops).store.pkis && SameCertificates(st.store.pkis[n], Run(st, ops).store.pkis[n])
    decreases |ops|
  {
    if ops != [] {
      StepKeepsOverlap(st, ops[0], n);
      ApplyKeepsInv(st, ops[0]);
      OverlapIsFrozen(Apply(st, ops[0]), ops[1..], n);
    }
  }

  // ---- Trust bundles ----

  /** The PEMs a member of a scope verifies peers against: the scopes' intermediates, then every root. */
  function TrustBundle(p: Pki, scopes: seq<string>): Result<seq<Cert>> {
    if exists s | s in scopes :: s !in p.intermediates then Err("no intermediate for scope")
    else Ok(seq(|scopes|, i requires 0 <= i < |scopes| => p.intermediates[scopes[i]].cert)
            + [p.root.cert] + seq(|p.previousRoots|, i requires 0 <= i < |p.previousRoots| => p.previousRoots[i].cert))
  }

  /** OpenSSL accepts a leaf sent alone iff the bundle holds its whole chain up to a self-signed root. */
  ghost predicate VerifiesIn(bundle: seq<Cert>, leaf: Cert, t: int) {
    exists inter, root | inter in bundle && root in bundle :: ValidPath(leaf, inter, root, t)
  }

  lemma BundleHolds(p: Pki, scopes: seq<string>, s: string)
    requires TrustBundle(p, scopes).Ok? && s in scopes
    ensures s in p.intermediates
    ensures p.intermediates[s].cert in TrustBundle(p, scopes).value && p.root.cert in TrustBundle(p, scopes).value
  {
    var b := TrustBundle(p, scopes).value;
    var i :| 0 <= i < |scopes| && scopes[i] == s;
    assert b[i] == p.intermediates[s].cert && b[|scopes|] == p.root.cert;
  }

  lemma BundleHoldsOnly(p: Pki, scopes: seq<string>, c: Cert)
    requires TrustBundle(p, scopes).Ok? && c in TrustBundle(p, scopes).value
    ensures (exists s :: s in scopes && s in p.intermediates && c == p.intermediates[s].cert)
      || c == p.root.cert || exists r :: r in p.previousRoots && c == r.cert
  {
    var b := TrustBundle(p, scopes).value;
    var i :| 0 <= i < |b| && b[i] == c;
    if i < |scopes| {
      assert scopes[i] in scopes && c == p.intermediates[scopes[i]].cert;
    } else if i > |scopes| {
      assert p.previousRoots[i - |scopes| - 1] in p.previousRoots;
    }
  }

  /** The regional boundary: a bundle admits a scope's live leaves exactly when that scope is in the trust set. */
  lemma BundleAdmitsExactlyItsScopes(st: State, n: string, scopes: seq<string>, scope: string, leaf: Cert, t: int)
    requires Inv(st) && Anchored(st, n, scope, leaf) && LiveAt(leaf, t) && st.clock <= t
    requires TrustBundle(st.store.pkis[n], scopes).Ok?
    ensures VerifiesIn(TrustBundle(st.store.pkis[n], scopes).value, leaf, t) <==> scope in scopes
  {
    var p := st.store.pkis[n];
    var b := TrustBundle(p, scopes).value;
    assert PkiOk(p, st);
    if scope in scopes {
      AnchoredLeafPaths(st, n, scope, leaf, t);
      BundleHolds(p, scopes, scope);
    }
    if VerifiesIn(b, leaf, t) {
      var inter, root :| inter in b && root in b && ValidPath(leaf, inter, root, t);
      BundleHoldsOnly(p, scopes, inter);
      var s :| s in scopes && s in p.intermediates && inter == p.intermediates[s].cert;
      assert s == scope;
    }
  }

  lemma BundleVerifies(st: State, n: string, scope: string, scopes: seq<string>, leaf: Cert, t: int)
    requires Inv(st) && HasScope(st, n, scope) && Issued(leaf, InterOf(st, n, scope))
    requires scope in scopes && TrustBundle(st.store.pkis[n], scopes).Ok?
    requires LiveAt(leaf, t) && st.clock <= t <= InterOf(st, n, scope).notAfter
    ensures VerifiesIn(TrustBundle(st.store.pkis[n], scopes).value, leaf, t)
  {
    var p := st.store.pkis[n];
    assert PkiOk(p, st) && IntermediateOk(p.intermediates[scope], p.root.cert, st);
    BundleHolds(p, scopes, scope);
    assert ValidPath(leaf, p.intermediates[scope].cert, p.root.cert, t);
  }

  /** Hosts renew at different times: a bundle built at one moment of a run verifies a leaf minted at any other,
      as long as the bundle's own intermediate is unexpired. */
  lemma BundlesAndLeavesMix(st: State, ops: seq<Op>, n: string, scope: string, scopes: seq<string>,
                            early: Cert, late: Cert, t: int)
    requires Inv(st) && NoReMint(ops, n, scope) && scope in scopes
    requires Anchored(st, n, scope, early) && Anchored(Run(st, ops), n, scope, late)
    requires TrustBundle(st.store.pkis[n], scopes).Ok? && TrustBundle(Run(st, ops).store.pkis[n], scopes).Ok?
    requires LiveAt(early, t) && LiveAt(late, t) && st.clock <= t && Run(st, ops).clock <= t
    ensures VerifiesIn(TrustBundle(Run(st, ops).store.pkis[n], scopes).value, early, t)
    ensures t <= InterOf(st, n, scope).notAfter ==> VerifiesIn(TrustBundle(st.store.pkis[n], scopes).value, late, t)
  {
    var st' := Run(st, ops);
    RunKeepsInv(st, ops);
    RunKeepsAnchored(st, ops, n, scope, early);
    BundleVerifies(st', n, scope, scopes, early, t);
    if t <= InterOf(st, n, scope).notAfter {
      assert Issued(late, InterOf(st, n, scope));
      BundleVerifies(st, n, scope, scopes, late, t);
    }
  }
}
