/** The env's committed PKI store and the operations that change it (cmd/inforge/pki.go). */
module PkiStore {
  import opened Common
  import opened Crypto

  datatype Topology = TwoTier | RootOnly

  datatype Material = Material(cert: Cert, key: Ciphertext)

  datatype Pki = Pki(topology: Topology, scope: string, root: Material, previousRoots: seq<Material>,
                     intermediates: map<string, Material>, previousIntermediates: map<string, seq<Cert>>)
  {
    predicate InOverlap() { |previousRoots| > 0 }
  }

  datatype Store = Store(rootRecipient: Recipient, recipient: Recipient, pkis: map<string, Pki>)
  {
    function RootKeyRecipient(t: Topology): Recipient {
      if t.RootOnly? then recipient else rootRecipient
    }
  }

  /** The committed store, the first key (and encryption nonce) never yet used, and the time of the last operation. */
  datatype State = State(store: Store, nextKey: nat, clock: int)

  function Put(st: State, name: string, p: Pki, keys: nat): State {
    State(st.store.(pkis := st.store.pkis[name := p]), st.nextKey + keys, st.clock)
  }

  /** `--topology` and `--scope` as typed: two-tier takes no scope, root-only defaults to global. */
  function ParseTopology(topology: string, scope: string): Result<(Topology, string)> {
    if topology == "two-tier" then
      (if scope != "" then Err("scope not valid for two-tier") else Ok((TwoTier, "")))
    else if topology == "root-only" then Ok((RootOnly, if scope == "" then "global" else scope))
    else Err("unknown topology")
  }

  function AddSpec(st: State, name: string, topology: string, scope: string): Result<State> {
    var t := ParseTopology(topology, scope);
    if t.Err? then Err(t.error)
    else if name in st.store.pkis then Err("already exists")
    else
      var cert := GenerateRoot(name + " root", st.nextKey, st.clock);
      var key := Encrypt(PrivateKey(st.nextKey), st.store.RootKeyRecipient(t.value.0), st.nextKey);
      Ok(Put(st, name, Pki(t.value.0, t.value.1, Material(cert, key), [], map[], map[]), 1))
  }

  /** The custody seam: open the cold root with the offline identity, sign, seal the new key for CI. */
  function MintMaterial(st: State, p: Pki, name: string, scope: string, rootIdentity: Option<Recipient>)
    : Result<Material>
  {
    if rootIdentity.None? then Err("root identity unset")
    else match Decrypt(p.root.key, rootIdentity.value)
      case None => Err("wrong root identity")
      case Some(PrivateKey(k)) =>
        var cert := SignCA(p.root.cert, k, name + " " + scope + " intermediate", st.nextKey, st.clock);
        if cert.Err? then Err(cert.error)
        else Ok(Material(cert.value, Encrypt(PrivateKey(st.nextKey), st.store.recipient, st.nextKey)))
      case Some(_) => Err("not a private key")
  }

  /** First mint and re-mint differ only in whether the scope must be absent or present. */
  function MintSpec(st: State, name: string, scope: string, rootIdentity: Option<Recipient>, existing: bool)
    : Result<State>
  {
    if scope == "" then Err("scope required")
    else if name !in st.store.pkis then Err("not found")
    else
      var p := st.store.pkis[name];
      if p.topology != TwoTier then Err("not two-tier")
      else if existing != (scope in p.intermediates) then Err("wrong scope presence")
      else if p.InOverlap() then Err("in a root overlap")
      else
        var m := MintMaterial(st, p, name, scope, rootIdentity);
        if m.Err? then Err(m.error)
        else Ok(Put(st, name, p.(intermediates := p.intermediates[scope := m.value]), 1))
  }

  predicate HasRootCustody(p: Pki, rootIdentity: Option<Recipient>) {
    rootIdentity.Some? && Decrypt(p.root.key, rootIdentity.value).Some?
  }

  /** Every intermediate re-issued by the new root over its own key; the first failure aborts. */
  function ReSignAll(inters: map<string, Material>, root: Cert, key: nat, now: int): Option<map<string, Material>> {
    if forall s | s in inters :: ReSignIntermediate(root, key, inters[s].cert, now).Ok?
    then Some(map s | s in inters :: inters[s].(cert := ReSignIntermediate(root, key, inters[s].cert, now).value))
    else None
  }

  lemma ReSignAllIs(inters: map<string, Material>, root: Cert, key: nat, now: int, out: map<string, Material>)
    requires out.Keys == inters.Keys
    requires forall s | s in inters :: ReSignIntermediate(root, key, inters[s].cert, now) == Ok(out[s].cert)
    requires forall s | s in inters :: out[s].key == inters[s].key
    ensures ReSignAll(inters, root, key, now) == Some(out)
  {
    var all := ReSignAll(inters, root, key, now).value;
    forall s | s in out ensures s in all && all[s] == out[s] {
      assert ReSignIntermediate(root, key, inters[s].cert, now) == Ok(out[s].cert);
    }
    assert all == out;
  }

  lemma ReSignAllFails(inters: map<string, Material>, root: Cert, key: nat, now: int, s: string)
    requires s in inters && ReSignIntermediate(root, key, inters[s].cert, now).Err?
    ensures ReSignAll(inters, root, key, now).None?
  {
    assert !(forall s | s in inters :: ReSignIntermediate(root, key, inters[s].cert, now).Ok?);
  }

  function Retained(prev: map<string, seq<Cert>>, inters: map<string, Material>): map<string, seq<Cert>> {
    map s | s in prev.Keys + inters.Keys :: RetainedOne(prev, inters, inters.Keys, s)
  }

  function RetainedOne(prev: map<string, seq<Cert>>, inters: map<string, Material>, done: set<string>, s: string)
    : seq<Cert>
  {
    var kept := if s in prev then prev[s] else [];
    if s in done && s in inters then kept + [inters[s].cert] else kept
  }

  function BeginSpec(st: State, name: string, rootIdentity: Option<Recipient>): Result<State> {
    if name !in st.store.pkis then Err("not found")
    else
      var p := st.store.pkis[name];
      if p.topology != TwoTier then Err("not two-tier")
      else if p.InOverlap() then Err("already in a root overlap")
      else if !HasRootCustody(p, rootIdentity) then Err("no root custody")
      else
        var cert := GenerateRoot(name + " root", st.nextKey, st.clock);
        var key := Encrypt(PrivateKey(st.nextKey), st.store.RootKeyRecipient(TwoTier), st.nextKey);
        var resigned := ReSignAll(p.intermediates, cert, st.nextKey, st.clock);
        if resigned.None? then Err("re-sign failed")
        else Ok(Put(st, name, p.(root := Material(cert, key),
                                 previousRoots := p.previousRoots + [p.root],
                                 intermediates := resigned.value,
                                 previousIntermediates := Retained(p.previousIntermediates, p.intermediates)), 1))
  }

  function FinalizeSpec(st: State, name: string, rootIdentity: Option<Recipient>): Result<State> {
    if name !in st.store.pkis then Err("not found")
    else
      var p := st.store.pkis[name];
      if p.topology != TwoTier then Err("not two-tier")
      else if !p.InOverlap() then Err("not in a root overlap")
      else if !HasRootCustody(p, rootIdentity) then Err("no root custody")
      else Ok(Put(st, name, p.(previousRoots := [], previousIntermediates := map[]), 0))
  }

  /** Loop progress: every scope outside `todo` is re-signed, every scope inside it is untouched. */
  ghost predicate ReSigned(given: map<string, Material>, root: Cert, key: nat, now: int,
                           inters: map<string, Material>, todo: set<string>)
  {
    && todo <= given.Keys && inters.Keys == given.Keys
    && (forall s | s in given && s !in todo ::
          inters[s].key == given[s].key && ReSignIntermediate(root, key, given[s].cert, now) == Ok(inters[s].cert))
    && (forall s | s in todo :: inters[s] == given[s])
  }

  ghost predicate RetainedSoFar(given: map<string, Material>, retained: map<string, seq<Cert>>,
                                prev: map<string, seq<Cert>>, todo: set<string>)
  {
    && prev.Keys == retained.Keys + (given.Keys - todo)
    && forall s | s in prev :: prev[s] == RetainedOne(retained, given, given.Keys - todo, s)
  }

  lemma ReSignStep(given: map<string, Material>, root: Cert, key: nat, now: int, inters: map<string, Material>,
                   todo: set<string>, s: string, cert: Cert)
    requires ReSigned(given, root, key, now, inters, todo) && s in todo
    requires ReSignIntermediate(root, key, given[s].cert, now) == Ok(cert)
    ensures ReSigned(given, root, key, now, inters[s := inters[s].(cert := cert)], todo - {s})
  {
  }

  lemma RetainStep(given: map<string, Material>, retained: map<string, seq<Cert>>, prev: map<string, seq<Cert>>,
                   todo: set<string>, s: string)
    requires RetainedSoFar(given, retained, prev, todo) && s in todo && todo <= given.Keys
    ensures RetainedSoFar(given, retained, prev[s := (if s in prev then prev[s] else []) + [given[s].cert]], todo - {s})
  {
    var next := prev[s := (if s in prev then prev[s] else []) + [given[s].cert]];
    forall x | x in next ensures next[x] == RetainedOne(retained, given, given.Keys - (todo - {s}), x) {
      if x != s { assert next[x] == prev[x]; }
    }
  }

  /** The commands as they run: load the store, change a copy, save it on success only. */
  class Admin {
    var saved: Store
    var nextKey: nat
    var clock: int

    function Now(): State reads this { State(saved, nextKey, clock) }

    constructor (store: Store, nextKey: nat, clock: int)
      ensures Now() == State(store, nextKey, clock)
    {
      this.saved := store;
      this.nextKey := nextKey;
      this.clock := clock;
    }

    method Save(name: string, p: Pki, keys: nat)
      modifies this
      ensures Now() == Put(old(Now()), name, p, keys)
    {
      saved := saved.(pkis := saved.pkis[name := p]);
      nextKey := nextKey + keys;
    }

    method Add(name: string, topology: string, scope: string) returns (err: Option<string>)
      modifies this
      ensures match AddSpec(old(Now()), name, topology, scope)
        case Ok(s) => Now() == s && err.None?
        case Err(e) => Now() == old(Now()) && err == Some(e)
    {
      var t := ParseTopology(topology, scope);
      if t.Err? { return Some(t.error); }
      if name in saved.pkis { return Some("already exists"); }
      var cert := GenerateRoot(name + " root", nextKey, clock);
      var key := Encrypt(PrivateKey(nextKey), saved.RootKeyRecipient(t.value.0), nextKey);
      Save(name, Pki(t.value.0, t.value.1, Material(cert, key), [], map[], map[]), 1);
      err := None;
    }

    method Mint(name: string, scope: string, rootIdentity: Option<Recipient>, existing: bool)
      returns (err: Option<string>)
      modifies this
      ensures match MintSpec(old(Now()), name, scope, rootIdentity, existing)
        case Ok(s) => Now() == s && err.None?
        case Err(e) => Now() == old(Now()) && err == Some(e)
    {
      if scope == "" { return Some("scope required"); }
      if name !in saved.pkis { return Some("not found"); }
      var p := saved.pkis[name];
      if p.topology != TwoTier { return Some("not two-tier"); }
      if existing != (scope in p.intermediates) { return Some("wrong scope presence"); }
      if p.InOverlap() { return Some("in a root overlap"); }
      var m := MintMaterial(Now(), p, name, scope, rootIdentity);
      if m.Err? { return Some(m.error); }
      Save(name, p.(intermediates := p.intermediates[scope := m.value]), 1);
      err := None;
    }

    /** The loop over the sorted scopes: re-sign each intermediate and retain its old certificate. */
    static method ReSignLoop(root: Cert, key: nat, now: int, given: map<string, Material>,
                             retained: map<string, seq<Cert>>)
      returns (ok: bool, inters: map<string, Material>, prev: map<string, seq<Cert>>)
      ensures ok ==> ReSignAll(given, root, key, now) == Some(inters) && prev == Retained(retained, given)
      ensures !ok ==> ReSignAll(given, root, key, now).None?
    {
      ok, inters, prev := true, given, retained;
      var todo := given.Keys;
      while todo != {}
        invariant ok && ReSigned(given, root, key, now, inters, todo)
        invariant RetainedSoFar(given, retained, prev, todo)
      {
        var s := Least(todo);
        var inter := inters[s];
        var cert := ReSignIntermediate(root, key, inter.cert, now);
        if cert.Err? {
          ok := false;
          ReSignAllFails(given, root, key, now, s);
          return;
        }
        ReSignStep(given, root, key, now, inters, todo, s, cert.value);
        RetainStep(given, retained, prev, todo, s);
        prev := prev[s := (if s in prev then prev[s] else []) + [inter.cert]];
        inters := inters[s := inter.(cert := cert.value)];
        todo := todo - {s};
      }
      ReSignAllIs(given, root, key, now, inters);
      assert prev == Retained(retained, given);
    }

    method BeginRootRotation(name: string, rootIdentity: Option<Recipient>) returns (err: Option<string>)
      modifies this
      ensures match BeginSpec(old(Now()), name, rootIdentity)
        case Ok(s) => Now() == s && err.None?
        case Err(e) => Now() == old(Now()) && err == Some(e)
    {
      if name !in saved.pkis { return Some("not found"); }
      var p := saved.pkis[name];
      if p.topology != TwoTier { return Some("not two-tier"); }
      if p.InOverlap() { return Some("already in a root overlap"); }
      if !HasRootCustody(p, rootIdentity) { return Some("no root custody"); }
      var cert := GenerateRoot(name + " root", nextKey, clock);
      var key := Encrypt(PrivateKey(nextKey), saved.RootKeyRecipient(TwoTier), nextKey);
      var ok, inters, prev := ReSignLoop(cert, nextKey, clock, p.intermediates, p.previousIntermediates);
      if !ok { return Some("re-sign failed"); }
      p := p.(root := Material(cert, key), previousRoots := p.previousRoots + [p.root],
              intermediates := inters, previousIntermediates := prev);
      Save(name, p, 1);
      err := None;
    }

    method FinalizeRootRotation(name: string, rootIdentity: Option<Recipient>) returns (err: Option<string>)
      modifies this
      ensures match FinalizeSpec(old(Now()), name, rootIdentity)
        case Ok(s) => Now() == s && err.None?
        case Err(e) => Now() == old(Now()) && err == Some(e)
    {
      if name !in saved.pkis { return Some("not found"); }
      var p := saved.pkis[name];
      if p.topology != TwoTier { return Some("not two-tier"); }
      if !p.InOverlap() { return Some("not in a root overlap"); }
      if !HasRootCustody(p, rootIdentity) { return Some("no root custody"); }
      p := p.(previousRoots := [], previousIntermediates := map[]);
      Save(name, p, 0);
      err := None;
    }
  }
}
