/** Symbolic cryptography: age ciphertexts and X.509 certificates as terms. */
module Crypto {
  import opened Common

  /** A recipient stands for its key pair; the matching identity opens exactly its ciphertexts. */
  type Recipient = string

  /** `Sealed` makes a doubly encrypted value expressible, so its absence can be stated. */
  datatype Plain = PrivateKey(key: nat) | Text(text: string) | Sealed(inner: Ciphertext)

  /** `nonce` is the randomness of one encryption: encrypting again, even for the same recipient, gives other bytes. */
  datatype Ciphertext = Ciphertext(plain: Plain, to: Recipient, nonce: nat)

  function Encrypt(plain: Plain, to: Recipient, nonce: nat): Ciphertext {
    Ciphertext(plain, to, nonce)
  }

  /** Some encryption of this value for this recipient. */
  predicate Seals(c: Ciphertext, plain: Plain, to: Recipient) { c.plain == plain && c.to == to }

  function Decrypt(c: Ciphertext, identity: Recipient): Option<Plain> {
    if c.to == identity then Some(c.plain) else None
  }

  /** `key` is the subject's public key, `signer` the key that signed; times are in seconds. */
  datatype Cert = Cert(subject: string, key: nat, issuer: string, signer: nat, isCA: bool,
                       notBefore: int, notAfter: int)

  const YEAR: int := 365 * 24 * 3600
  const ROOT_VALIDITY: int := 10 * YEAR
  const INTERMEDIATE_VALIDITY: int := 5 * YEAR
  const LEAF_VALIDITY: int := 90 * 24 * 3600
  const SKEW: int := 60

  /** The child's NotAfter, capped by the parent's; an expired parent is refused. */
  function ClampToParent(now: int, validity: int, parent: Cert): (r: Result<int>)
    ensures r.Ok? <==> parent.notAfter > now
    ensures r.Ok? ==> now < r.value || validity <= 0
    ensures r.Ok? ==> r.value <= parent.notAfter && r.value <= now + validity
    ensures r.Ok? ==> r.value == parent.notAfter || r.value == now + validity
  {
    if parent.notAfter <= now then Err("parent expired")
    else Ok(if now + validity > parent.notAfter then parent.notAfter else now + validity)
  }

  function GenerateRoot(cn: string, key: nat, now: int): Cert {
    Cert(cn, key, cn, key, true, now - SKEW, now + ROOT_VALIDITY)
  }

  /** Signing refuses a private key that is not the parent certificate's own. */
  function SignCA(parent: Cert, parentKey: nat, subject: string, key: nat, now: int): Result<Cert> {
    var notAfter := ClampToParent(now, INTERMEDIATE_VALIDITY, parent);
    if notAfter.Err? then Err(notAfter.error)
    else if parentKey != parent.key then Err("private key does not match parent")
    else Ok(Cert(subject, key, parent.subject, parentKey, true, now - SKEW, notAfter.value))
  }

  /** Re-issue over the existing subject and public key: only the issuer changes. */
  function ReSignIntermediate(newParent: Cert, newParentKey: nat, existing: Cert, now: int): Result<Cert> {
    SignCA(newParent, newParentKey, existing.subject, existing.key, now)
  }

  function GenerateLeaf(parent: Cert, parentKey: nat, cn: string, key: nat, now: int): Result<Cert> {
    var notAfter := ClampToParent(now, LEAF_VALIDITY, parent);
    if notAfter.Err? then Err(notAfter.error)
    else if parentKey != parent.key then Err("private key does not match parent")
    else Ok(Cert(cn, key, parent.subject, parentKey, false, now - SKEW, notAfter.value))
  }

  predicate Issued(child: Cert, parent: Cert) {
    parent.isCA && child.signer == parent.key && child.issuer == parent.subject
  }

  predicate LiveAt(c: Cert, t: int) {
    c.notBefore <= t <= c.notAfter
  }

  predicate SelfSigned(c: Cert) {
    Issued(c, c)
  }

  /** Path validation (section 6.1 of RFC 5280) for the two-tier shape: names and keys chain, all live. */
  predicate ValidPath(leaf: Cert, inter: Cert, root: Cert, t: int) {
    && Issued(leaf, inter) && Issued(inter, root) && SelfSigned(root)
    && LiveAt(leaf, t) && LiveAt(inter, t) && LiveAt(root, t)
  }
}
