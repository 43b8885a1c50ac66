/** `secret rotate`: re-encrypting the secret store and the CI-held PKI keys, with a crash between the writes. */
module MasterRotation {
  import opened Common
  import opened Crypto
  import opened PkiStore

  /** Entries are addressed by (service or reserved namespace, KEY). */
  type Entries = map<(string, string), Ciphertext>

  datatype SecretStore = SecretStore(recipient: Recipient, services: Entries, reserved: Entries)

  /** The two committed files; an env need not have a PKI store. */
  datatype Files = Files(secrets: SecretStore, pki: Option<Store>)

  /** One run's luck: which of the two writes reach the disk (a failed or never reached one leaves its file alone), and
      the randomness of its encryptions. */
  datatype Attempt = Attempt(pki: bool, secrets: bool, nonce: nat)

  predicate Opens(m: Entries, identity: Recipient) {
    forall k | k in m :: Decrypt(m[k], identity).Some?
  }

  function ReEncrypt(c: Ciphertext, identity: Recipient, recipient: Recipient, nonce: nat): Option<Ciphertext> {
    match Decrypt(c, identity)
    case Some(p) => Some(Encrypt(p, recipient, nonce))
    case None => None
  }

  function ReEncryptAll(m: Entries, identity: Recipient, recipient: Recipient, nonce: nat): Option<Entries> {
    if Opens(m, identity) then Some(map k | k in m :: ReEncrypt(m[k], identity, recipient, nonce).value) else None
  }

  predicate OpensIntermediates(p: Pki, identity: Recipient) {
    forall s | s in p.intermediates :: Decrypt(p.intermediates[s].key, identity).Some?
  }

  predicate OpensCiHeld(p: Pki, identity: Recipient) {
    && (p.topology.RootOnly? ==> Decrypt(p.root.key, identity).Some?)
    && OpensIntermediates(p, identity)
  }

  /** Only CI-held keys move: a root-only root and every intermediate, never a cold root. */
  function RekeyPki(p: Pki, identity: Recipient, recipient: Recipient, nonce: nat): Pki
    requires OpensCiHeld(p, identity)
  {
    p.(root := if p.topology.RootOnly? then p.root.(key := ReEncrypt(p.root.key, identity, recipient, nonce).value)
               else p.root,
       intermediates := map s | s in p.intermediates ::
         p.intermediates[s].(key := ReEncrypt(p.intermediates[s].key, identity, recipient, nonce).value))
  }

  function RekeyStore(s: Store, identity: Recipient, current: Recipient, recipient: Recipient, nonce: nat)
    : Result<Store>
  {
    if s.recipient == recipient then Ok(s)
    else if s.recipient != current then Err("pki store has another recipient")
    else if forall n | n in s.pkis :: OpensCiHeld(s.pkis[n], identity) then
      Ok(Store(s.rootRecipient, recipient, map n | n in s.pkis :: RekeyPki(s.pkis[n], identity, recipient, nonce)))
    else Err("cannot decrypt a CI-held key")
  }

  function RekeyOptional(s: Option<Store>, identity: Recipient, current: Recipient, recipient: Recipient, nonce: nat)
    : Result<Option<Store>>
  {
    match s
    case None => Ok(None)
    case Some(store) =>
      match RekeyStore(store, identity, current, recipient, nonce)
      case Ok(r) => Ok(Some(r))
      case Err(e) => Err(e)
  }

  /** One run of the command: the files it leaves behind and whether it reported success. */
  function RotateSpec(f: Files, identity: Recipient, recipient: Recipient, w: Attempt): (Files, bool) {
    var services := ReEncryptAll(f.secrets.services, identity, recipient, w.nonce);
    var reserved := ReEncryptAll(f.secrets.reserved, identity, recipient, w.nonce);
    if services.None? || reserved.None? then (f, false)
    else match RekeyOptional(f.pki, identity, f.secrets.recipient, recipient, w.nonce)
      case Err(_) => (f, false)
      case Ok(pki) =>
        if pki != f.pki && !w.pki then (f, false)
        else if !w.secrets then (f.(pki := pki), false)
        else (Files(SecretStore(recipient, services.value, reserved.value), pki), true)
  }

  /** The command itself, over the two files on disk. */
  class Disk {
    var files: Files

    constructor (files: Files)
      ensures this.files == files
    {
      this.files := files;
    }

    static method ReEncryptEntries(m: Entries, identity: Recipient, recipient: Recipient, nonce: nat)
      returns (r: Option<Entries>)
      ensures r == ReEncryptAll(m, identity, recipient, nonce)
    {
      var out, todo := m, m.Keys;
      while todo != {}
        invariant todo <= m.Keys && out.Keys == m.Keys
        invariant forall k | k in m && k !in todo ::
          Decrypt(m[k], identity).Some? && out[k] == ReEncrypt(m[k], identity, recipient, nonce).value
        invariant forall k | k in todo :: out[k] == m[k]
      {
        var k :| k in todo;
        var c := ReEncrypt(out[k], identity, recipient, nonce);
        if c.None? {
          assert !Opens(m, identity) by { assert Decrypt(m[k], identity).None?; }
          return None;
        }
        out := out[k := c.value];
        todo := todo - {k};
      }
      assert out == ReEncryptAll(m, identity, recipient, nonce).value;
      return Some(out);
    }

    static method RekeyOne(p: Pki, identity: Recipient, recipient: Recipient, nonce: nat) returns (r: Option<Pki>)
      ensures r == if OpensCiHeld(p, identity) then Some(RekeyPki(p, identity, recipient, nonce)) else None
    {
      var q := p;
      if p.topology.RootOnly? {
        var c := ReEncrypt(p.root.key, identity, recipient, nonce);
        if c.None? { return None; }
        q := q.(root := q.root.(key := c.value));
      }
      var inters, todo := p.intermediates, p.intermediates.Keys;
      while todo != {}
        invariant todo <= p.intermediates.Keys && inters.Keys == p.intermediates.Keys
        invariant forall s | s in p.intermediates && s !in todo ::
          && Decrypt(p.intermediates[s].key, identity).Some?
          && inters[s] ==
            p.intermediates[s].(key := ReEncrypt(p.intermediates[s].key, identity, recipient, nonce).value)
        invariant forall s | s in todo :: inters[s] == p.intermediates[s]
      {
        var s := Least(todo);
        var m := inters[s];
        var c := ReEncrypt(m.key, identity, recipient, nonce);
        if c.None? {
          assert !OpensIntermediates(p, identity) by { assert Decrypt(p.intermediates[s].key, identity).None?; }
          return None;
        }
        inters := inters[s := m.(key := c.value)];
        todo := todo - {s};
      }
      q := q.(intermediates := inters);
      assert OpensIntermediates(p, identity);
      assert q.intermediates == RekeyPki(p, identity, recipient, nonce).intermediates;
      return Some(q);
    }

    static method RekeyAll(store: Store, identity: Recipient, recipient: Recipient, nonce: nat)
      returns (r: Option<map<string, Pki>>)
      ensures r.Some? <==> forall n | n in store.pkis :: OpensCiHeld(store.pkis[n], identity)
      ensures r.Some? ==> r.value.Keys == store.pkis.Keys
      ensures r.Some? ==>
        forall n | n in store.pkis :: r.value[n] == RekeyPki(store.pkis[n], identity, recipient, nonce)
    {
      var out, todo := store.pkis, store.pkis.Keys;
      while todo != {}
        invariant todo <= store.pkis.Keys && out.Keys == store.pkis.Keys
        invariant forall n | n in store.pkis && n !in todo ::
          OpensCiHeld(store.pkis[n], identity) && out[n] == RekeyPki(store.pkis[n], identity, recipient, nonce)
        invariant forall n | n in todo :: out[n] == store.pkis[n]
      {
        var n := Least(todo);
        var p := RekeyOne(out[n], identity, recipient, nonce);
        if p.None? { return None; }
        out := out[n := p.value];
        todo := todo - {n};
      }
      return Some(out);
    }

    method Rotate(identity: Recipient, recipient: Recipient, w: Attempt) returns (done: bool)
      modifies this
      ensures (files, done) == RotateSpec(old(files), identity, recipient, w)
    {
      var store := files.secrets;
      var services := ReEncryptEntries(store.services, identity, recipient, w.nonce);
      if services.None? { return false; }
      var reserved := ReEncryptEntries(store.reserved, identity, recipient, w.nonce);
      if reserved.None? { return false; }
      if files.pki.Some? && files.pki.value.recipient != recipient {
        var pki := files.pki.value;
        if pki.recipient != store.recipient { return false; }
        var pkis := RekeyAll(pki, identity, recipient, w.nonce);
        if pkis.None? { return false; }
        if !w.pki { return false; }
        assert pkis.value == map n | n in pki.pkis :: RekeyPki(pki.pkis[n], identity, recipient, w.nonce);
        files := files.(pki := Some(Store(pki.rootRecipient, recipient, pkis.value)));
      }
      if !w.secrets { return false; }
      files := files.(secrets := SecretStore(recipient, services.value, reserved.value));
      return true;
    }
  }

  // ---- What a rotation preserves ----

  ghost predicate SealedTo(m: Entries, r: Recipient) {
    forall k | k in m :: m[k].to == r
  }

  ghost predicate CiHeldTo(s: Store, r: Recipient) {
    forall n | n in s.pkis ::
      && (s.pkis[n].topology.RootOnly? ==> s.pkis[n].root.key.to == r)
      && forall sc | sc in s.pkis[n].intermediates :: s.pkis[n].intermediates[sc].key.to == r
  }

  /** A deployable env: every CI-held value opens with the identity its file's header names. */
  ghost predicate Sound(f: Files) {
    && SealedTo(f.secrets.services, f.secrets.recipient)
    && SealedTo(f.secrets.reserved, f.secrets.recipient)
    && (f.pki.Some? ==> CiHeldTo(f.pki.value, f.pki.value.recipient))
  }

  /** Mid-rotation from `identity` to `recipient`: the PKI file may be ahead of the secret file, never behind. */
  ghost predicate Rotating(f: Files, identity: Recipient, recipient: Recipient) {
    && Sound(f) && f.secrets.recipient == identity
    && (f.pki.Some? ==> f.pki.value.recipient == identity || f.pki.value.recipient == recipient)
  }

  ghost predicate SamePlaintexts(a: Entries, b: Entries) {
    a.Keys == b.Keys && forall k | k in a :: a[k].plain == b[k].plain
  }

  /** Same certificates and plaintext keys everywhere; cold roots byte-identical. */
  ghost predicate SamePki(a: Pki, b: Pki) {
    && a.topology == b.topology && a.scope == b.scope
    && a.root.cert == b.root.cert && a.root.key.plain == b.root.key.plain
    && (a.topology.TwoTier? ==> a.root == b.root)
    && a.previousRoots == b.previousRoots
    && a.previousIntermediates == b.previousIntermediates
    && a.intermediates.Keys == b.intermediates.Keys
    && forall s | s in a.intermediates ::
         a.intermediates[s].cert == b.intermediates[s].cert
           && a.intermediates[s].key.plain == b.intermediates[s].key.plain
  }

  ghost predicate SameStores(a: Option<Store>, b: Option<Store>) {
    && a.Some? == b.Some?
    && (a.Some? ==>
          && a.value.rootRecipient == b.value.rootRecipient
          && a.value.pkis.Keys == b.value.pkis.Keys
          && forall n | n in a.value.pkis :: SamePki(a.value.pkis[n], b.value.pkis[n]))
  }

  ghost predicate SameContent(a: Files, b: Files) {
    && SamePlaintexts(a.secrets.services, b.secrets.services)
    && SamePlaintexts(a.secrets.reserved, b.secrets.reserved)
    && SameStores(a.pki, b.pki)
  }

  /** Both files moved: everything CI-held opens with the new identity. */
  ghost predicate Rotated(f: Files, recipient: Recipient) {
    && Sound(f) && f.secrets.recipient == recipient
    && (f.pki.Some? ==> f.pki.value.recipient == recipient)
  }

  lemma SameContentTransitive(a: Files, b: Files, c: Files)
    requires SameContent(a, b) && SameContent(b, c)
    ensures SameContent(a, c)
  {
    if a.pki.Some? {
      forall n | n in a.pki.value.pkis ensures SamePki(a.pki.value.pkis[n], c.pki.value.pkis[n]) {
        assert SamePki(a.pki.value.pkis[n], b.pki.value.pkis[n]) && SamePki(b.pki.value.pkis[n], c.pki.value.pkis[n]);
      }
    }
  }

  lemma RekeyStoreMoves(s: Store, identity: Recipient, recipient: Recipient, nonce: nat)
    requires CiHeldTo(s, s.recipient) && s.recipient == identity
    ensures RekeyStore(s, identity, identity, recipient, nonce).Ok?
    ensures var r := RekeyStore(s, identity, identity, recipient, nonce).value;
      && r.recipient == recipient && CiHeldTo(r, recipient)
      && r.rootRecipient == s.rootRecipient && r.pkis.Keys == s.pkis.Keys
      && forall n | n in s.pkis :: SamePki(s.pkis[n], r.pkis[n])
  {
    assert forall n | n in s.pkis :: OpensCiHeld(s.pkis[n], identity);
  }

  lemma RekeyOptionalMoves(s: Option<Store>, identity: Recipient, recipient: Recipient, nonce: nat)
    requires s.Some? ==> CiHeldTo(s.value, s.value.recipient)
    requires s.Some? ==> s.value.recipient == identity || s.value.recipient == recipient
    ensures var r := RekeyOptional(s, identity, identity, recipient, nonce);
      && r.Ok? && SameStores(s, r.value)
      && (r.value.Some? ==> CiHeldTo(r.value.value, recipient) && r.value.value.recipient == recipient)
  {
    if s.Some? && s.value.recipient == identity { RekeyStoreMoves(s.value, identity, recipient, nonce); }
  }

  lemma ReEncryptAllMoves(m: Entries, identity: Recipient, recipient: Recipient, nonce: nat)
    requires SealedTo(m, identity)
    ensures var r := ReEncryptAll(m, identity, recipient, nonce);
      r.Some? && SamePlaintexts(m, r.value) && SealedTo(r.value, recipient)
  {
  }

  /** Any interrupted run keeps the content and leaves a state the same command line can be re-run from. */
  lemma AttemptKeepsRotating(f: Files, identity: Recipient, recipient: Recipient, w: Attempt)
    requires Rotating(f, identity, recipient)
    ensures var (g, done) := RotateSpec(f, identity, recipient, w);
      && SameContent(f, g)
      && (if done then Rotated(g, recipient) else Rotating(g, identity, recipient))
      && (w.pki && w.secrets ==> done)
  {
    PkiMoves(f, identity, recipient, w.nonce);
    BothMove(f, identity, recipient, w.nonce);
    SameContentAsItself(f);
  }

  lemma SameContentAsItself(f: Files)
    ensures SameContent(f, f)
  {
  }

  /** The first write reaches the disk alone. */
  lemma PkiMoves(f: Files, identity: Recipient, recipient: Recipient, nonce: nat)
    requires Rotating(f, identity, recipient)
    ensures var pki := RekeyOptional(f.pki, identity, identity, recipient, nonce);
      pki.Ok? && SameContent(f, f.(pki := pki.value)) && Rotating(f.(pki := pki.value), identity, recipient)
  {
    RekeyOptionalMoves(f.pki, identity, recipient, nonce);
  }

  lemma BothMove(f: Files, identity: Recipient, recipient: Recipient, nonce: nat)
    requires Rotating(f, identity, recipient)
    ensures var services := ReEncryptAll(f.secrets.services, identity, recipient, nonce);
      var reserved := ReEncryptAll(f.secrets.reserved, identity, recipient, nonce);
      var pki := RekeyOptional(f.pki, identity, identity, recipient, nonce);
      && services.Some? && reserved.Some? && pki.Ok?
      && var g := Files(SecretStore(recipient, services.value, reserved.value), pki.value);
         SameContent(f, g) && Rotated(g, recipient)
  {
    ReEncryptAllMoves(f.secrets.services, identity, recipient, nonce);
    ReEncryptAllMoves(f.secrets.reserved, identity, recipient, nonce);
    RekeyOptionalMoves(f.pki, identity, recipient, nonce);
  }

  function Attempts(f: Files, identity: Recipient, recipient: Recipient, ws: seq<Attempt>): Files
    decreases |ws|
  {
    if ws == [] then f
    else
      var (g, done) := RotateSpec(f, identity, recipient, ws[0]);
      if done then g else Attempts(g, identity, recipient, ws[1..])
  }

  lemma {:induction false} AttemptsKeepContent(f: Files, identity: Recipient, recipient: Recipient, ws: seq<Attempt>)
    requires Rotating(f, identity, recipient)
    ensures var g := Attempts(f, identity, recipient, ws);
      SameContent(f, g) && (Rotating(g, identity, recipient) || Rotated(g, recipient))
    decreases |ws|
  {
    if ws != [] {
      AttemptKeepsRotating(f, identity, recipient, ws[0]);
      var (g, done) := RotateSpec(f, identity, recipient, ws[0]);
      if !done {
        AttemptsKeepContent(g, identity, recipient, ws[1..]);
        SameContentTransitive(f, g, Attempts(g, identity, recipient, ws[1..]));
      }
    }
  }

  /** Crash at any write, any number of times, then re-run to the end: everything opens, nothing is lost. */
  lemma CrashResumable(f: Files, identity: Recipient, recipient: Recipient, crashes: seq<Attempt>, nonce: nat)
    requires Rotating(f, identity, recipient)
    ensures var g := Attempts(f, identity, recipient, crashes + [Attempt(true, true, nonce)]);
      Rotated(g, recipient) && SameContent(f, g)
  {
    AttemptsKeepContent(f, identity, recipient, crashes + [Attempt(true, true, nonce)]);
    AttemptsEndRotated(f, identity, recipient, crashes, nonce);
  }

  lemma {:induction false} AttemptsEndRotated(f: Files, identity: Recipient, recipient: Recipient,
                                              crashes: seq<Attempt>, nonce: nat)
    requires Rotating(f, identity, recipient)
    ensures Rotated(Attempts(f, identity, recipient, crashes + [Attempt(true, true, nonce)]), recipient)
    decreases |crashes|
  {
    var all := crashes + [Attempt(true, true, nonce)];
    AttemptKeepsRotating(f, identity, recipient, all[0]);
    if crashes != [] {
      var (g, done) := RotateSpec(f, identity, recipient, all[0]);
      if !done {
        AttemptsEndRotated(g, identity, recipient, crashes[1..], nonce);
        assert all[1..] == crashes[1..] + [Attempt(true, true, nonce)];
      }
    }
  }

  /** CI opens what it held before, to the same plaintexts. */
  ghost predicate CiKeysOpen(before: Pki, after: Pki, recipient: Recipient) {
    && (before.topology.RootOnly? ==> Decrypt(after.root.key, recipient) == Some(before.root.key.plain))
    && forall s | s in before.intermediates ::
         s in after.intermediates
           && Decrypt(after.intermediates[s].key, recipient) == Some(before.intermediates[s].key.plain)
  }

  ghost predicate EntriesOpen(before: Entries, after: Entries, identity: Recipient, recipient: Recipient) {
    && before.Keys == after.Keys
    && forall k | k in before ::
         && Decrypt(after[k], recipient) == Decrypt(before[k], identity) == Some(before[k].plain)
         && (identity != recipient ==> Decrypt(after[k], identity).None?)
  }

  /** Whatever crashes came before, after a completed run every secret, every reserved value and every CI-held key opens
      with the new identity to its original plaintext, so nothing is encrypted twice, and no secret opens with the old
      one. */
  lemma RotatedContentOpens(f: Files, identity: Recipient, recipient: Recipient, crashes: seq<Attempt>, nonce: nat)
    requires Rotating(f, identity, recipient)
    ensures var g := Attempts(f, identity, recipient, crashes + [Attempt(true, true, nonce)]);
      && EntriesOpen(f.secrets.services, g.secrets.services, identity, recipient)
      && EntriesOpen(f.secrets.reserved, g.secrets.reserved, identity, recipient)
      && f.pki.Some? == g.pki.Some?
      && (f.pki.Some? ==> forall n | n in f.pki.value.pkis ::
            n in g.pki.value.pkis && CiKeysOpen(f.pki.value.pkis[n], g.pki.value.pkis[n], recipient))
  {
    CrashResumable(f, identity, recipient, crashes, nonce);
    var g := Attempts(f, identity, recipient, crashes + [Attempt(true, true, nonce)]);
    if f.pki.Some? {
      forall n | n in f.pki.value.pkis
        ensures n in g.pki.value.pkis && CiKeysOpen(f.pki.value.pkis[n], g.pki.value.pkis[n], recipient)
      {
        assert SamePki(f.pki.value.pkis[n], g.pki.value.pkis[n]);
      }
    }
  }

  /** What a run has to move opens, and the PKI file is at the old or the new recipient. */
  ghost predicate Movable(f: Files, identity: Recipient, recipient: Recipient) {
    && Opens(f.secrets.services, identity) && Opens(f.secrets.reserved, identity)
    && (f.pki.Some? && f.pki.value.recipient != recipient ==>
          && f.pki.value.recipient == f.secrets.recipient
          && forall n | n in f.pki.value.pkis :: OpensCiHeld(f.pki.value.pkis[n], identity))
  }

  lemma ReEncryptAllAny(m: Entries, identity: Recipient, recipient: Recipient, nonce: nat)
    requires Opens(m, identity)
    ensures var r := ReEncryptAll(m, identity, recipient, nonce);
      r.Some? && SamePlaintexts(m, r.value) && SealedTo(r.value, recipient)
  {
  }

  lemma RekeyKeepsStore(s: Option<Store>, identity: Recipient, current: Recipient, recipient: Recipient, nonce: nat)
    requires RekeyOptional(s, identity, current, recipient, nonce).Ok?
    ensures SameStores(s, RekeyOptional(s, identity, current, recipient, nonce).value)
  {
    if s.Some? && s.value.recipient != recipient {
      var r := RekeyStore(s.value, identity, current, recipient, nonce).value;
      forall n | n in s.value.pkis ensures n in r.pkis && SamePki(s.value.pkis[n], r.pkis[n]) {
        assert r.pkis[n] == RekeyPki(s.value.pkis[n], identity, recipient, nonce);
      }
    }
  }

  /** From any files at all, a run with working writes completes exactly when everything is movable; then nothing is
      lost and every secret is sealed to the new recipient, and otherwise neither file changes. */
  lemma RotateCompletesIff(f: Files, identity: Recipient, recipient: Recipient, nonce: nat)
    ensures var (g, done) := RotateSpec(f, identity, recipient, Attempt(true, true, nonce));
      && (done <==> Movable(f, identity, recipient))
      && (done ==>
            SameContent(f, g) && SealedTo(g.secrets.services, recipient) && SealedTo(g.secrets.reserved, recipient))
      && (!done ==> g == f)
  {
    if Opens(f.secrets.services, identity) && Opens(f.secrets.reserved, identity) {
      ReEncryptAllAny(f.secrets.services, identity, recipient, nonce);
      ReEncryptAllAny(f.secrets.reserved, identity, recipient, nonce);
      if RekeyOptional(f.pki, identity, f.secrets.recipient, recipient, nonce).Ok? {
        RekeyKeepsStore(f.pki, identity, f.secrets.recipient, recipient, nonce);
      }
    }
  }

  /** Once the PKI file is at one new recipient, no number of runs naming another changes either file. */
  lemma {:induction false} OtherRecipientRefused(f: Files, identity: Recipient, recipient: Recipient, other: Recipient,
                                                 ws: seq<Attempt>)
    requires Rotating(f, identity, recipient) && f.pki.Some? && f.pki.value.recipient == recipient
    requires identity != recipient && other != recipient
    ensures Attempts(f, identity, other, ws) == f
    decreases |ws|
  {
    if ws != [] {
      assert RotateSpec(f, identity, other, ws[0]) == (f, false);
      OtherRecipientRefused(f, identity, recipient, other, ws[1..]);
    }
  }

  /** A run whose nonce no key carries yet leaves exactly the cold roots byte-identical, even in the degenerate store
      whose two recipients coincide; every key CI holds is encrypted anew. */
  lemma ColdRootUntouchedIff(s: Store, identity: Recipient, current: Recipient, recipient: Recipient, nonce: nat,
                             n: string)
    requires RekeyStore(s, identity, current, recipient, nonce).Ok? && s.recipient != recipient && n in s.pkis
    requires s.pkis[n].root.key.nonce != nonce && forall sc | sc in s.pkis[n].intermediates ::
      s.pkis[n].intermediates[sc].key.nonce != nonce
    ensures var r := RekeyStore(s, identity, current, recipient, nonce).value;
      && r.rootRecipient == s.rootRecipient && n in r.pkis
      && (r.pkis[n].root == s.pkis[n].root <==> s.pkis[n].topology.TwoTier?)
      && r.pkis[n].previousRoots == s.pkis[n].previousRoots
      && r.pkis[n].intermediates.Keys == s.pkis[n].intermediates.Keys
      && forall sc | sc in s.pkis[n].intermediates :: r.pkis[n].intermediates[sc].key != s.pkis[n].intermediates[sc].key
  {
    var p := s.pkis[n];
    assert RekeyPki(p, identity, recipient, nonce).intermediates.Keys == p.intermediates.Keys;
    if p.topology.RootOnly? { assert RekeyPki(p, identity, recipient, nonce).root.key.nonce == nonce; }
  }
}
