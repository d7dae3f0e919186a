/**
 * The cryptographic primitives as arbitrary functions. Nothing is known about them except
 * the laws below, so every theorem holds for all primitives that satisfy those laws.
 */
module Primitives {
  import opened Wrappers
  import opened Bytes

  const KEY_SIZE: nat := 32

  /** HKDF info strings, one per derivation. */
  datatype Info =
    | ChainKeyInfo | MessageKeyInfo | DhRootInfo | PqChainInfo
    | SessionRootInfo | SessionHeaderInfo | SessionPqInfo | X3dhInfo

  datatype Suite = Suite(
    publicOf: Bytes -> Bytes,                      // X25519 public key of a secret key
    dh: (Bytes, Bytes) -> Option<Bytes>,           // X25519; None for the all-zero secret
    derive: (Bytes, Bytes, Info, nat) -> Bytes,    // HKDF extract-then-expand: salt, ikm, info, length
    seal: (Bytes, Bytes, Bytes, Bytes) -> Bytes,   // AES-256-GCM: key, nonce, plaintext, aad
    open: (Bytes, Bytes, Bytes, Bytes) -> Option<Bytes>,
    kemPublicOf: Bytes -> Bytes,                   // ML-KEM-768 encapsulation key
    encapsulate: (Bytes, Bytes) -> (Bytes, Bytes), // public key, coins -> ciphertext, secret
    decapsulate: (Bytes, Bytes) -> Bytes,          // secret key, ciphertext -> secret
    verifyingOf: Bytes -> Bytes,                   // ML-DSA-65 verifying key
    sign: (Bytes, Bytes) -> Bytes,
    verify: (Bytes, Bytes, Bytes) -> bool,
    signatureDecodes: Bytes -> bool                // whether 3309 bytes are an encoded signature
  )

  // Applications of the primitives, named so that the laws read as laws of functions.

  function PublicKey(s: Suite, secret: Bytes): (r: Bytes) { s.publicOf(secret) }
  function SharedSecret(s: Suite, secret: Bytes, publicKey: Bytes): (r: Option<Bytes>) { s.dh(secret, publicKey) }
  function Derive(s: Suite, salt: Bytes, ikm: Bytes, info: Info, n: nat): (r: Bytes) { s.derive(salt, ikm, info, n) }
  function Seal(s: Suite, k: Bytes, nonce: Bytes, plain: Bytes, aad: Bytes): (r: Bytes) { s.seal(k, nonce, plain, aad) }
  function Open(s: Suite, k: Bytes, nonce: Bytes, sealed: Bytes, aad: Bytes): (r: Option<Bytes>) {
    s.open(k, nonce, sealed, aad)
  }
  function KemPublicKey(s: Suite, secret: Bytes): (r: Bytes) { s.kemPublicOf(secret) }
  function Encapsulate(s: Suite, publicKey: Bytes,
                       coins: Bytes): (r: (Bytes, Bytes)) { s.encapsulate(publicKey, coins) }
  function Decapsulate(s: Suite, secret: Bytes, ciphertext: Bytes): (r: Bytes) { s.decapsulate(secret, ciphertext) }
  function VerifyingKey(s: Suite, secret: Bytes): (r: Bytes) { s.verifyingOf(secret) }
  function Sign(s: Suite, secret: Bytes, message: Bytes): (r: Bytes) { s.sign(secret, message) }
  predicate Verify(s: Suite, verifying: Bytes, message: Bytes,
                   signature: Bytes) { s.verify(verifying, message, signature) }

  predicate SignatureDecodes(s: Suite, signature: Bytes) { s.signatureDecodes(signature) }

  /** Section 6.1 of RFC 7748: both ends of an exchange compute the same 32-byte secret. */
  ghost predicate DhLaw(s: Suite) {
    && (forall a: Bytes :: |PublicKey(s, a)| == KEY_SIZE)
    && (forall a: Bytes, b: Bytes {:trigger SharedSecret(s, a, PublicKey(s, b))} ::
          && SharedSecret(s, a, PublicKey(s, b)).Some?
          && |SharedSecret(s, a, PublicKey(s, b)).value| == KEY_SIZE
          && SharedSecret(s, a, PublicKey(s, b)) == SharedSecret(s, b, PublicKey(s, a)))
  }

  /** Section 2 of RFC 5869: HKDF returns the requested number of bytes. */
  ghost predicate DeriveLaw(s: Suite) {
    forall salt: Bytes, ikm: Bytes, info: Info, n: nat :: |Derive(s, salt, ikm, info, n)| == n
  }

  /** Encryption is undone by the sealing key. That other keys are refused is assumed message by message. */
  ghost predicate AeadLaw(s: Suite) {
    forall k: Bytes, nonce: Bytes, plain: Bytes, aad: Bytes ::
      |k| == KEY_SIZE ==> Open(s, k, nonce, Seal(s, k, nonce, plain, aad), aad) == Some(plain)
  }

  const KEM_PUBLIC_KEY_LEN: nat := 1184
  const KEM_CIPHERTEXT_LEN: nat := 1088

  /** FIPS 203: decapsulation inverts encapsulation; the sizes are fixed. */
  ghost predicate KemLaw(s: Suite) {
    && (forall sk: Bytes :: |KemPublicKey(s, sk)| == KEM_PUBLIC_KEY_LEN)
    && (forall pk: Bytes, coins: Bytes ::
          && |Encapsulate(s, pk, coins).0| == KEM_CIPHERTEXT_LEN
          && |Encapsulate(s, pk, coins).1| == KEY_SIZE)
    && (forall sk: Bytes, coins: Bytes ::
          Decapsulate(s, sk, Encapsulate(s, KemPublicKey(s, sk), coins).0)
          == Encapsulate(s, KemPublicKey(s, sk), coins).1)
  }

  /** Secrets have 32 bytes whatever the inputs. */
  ghost predicate SizeLaw(s: Suite) {
    && (forall a: Bytes, publicKey: Bytes ::
          SharedSecret(s, a, publicKey).Some? ==> |SharedSecret(s, a, publicKey).value| == KEY_SIZE)
    && (forall sk: Bytes, ciphertext: Bytes :: |Decapsulate(s, sk, ciphertext)| == KEY_SIZE)
  }

  const VERIFYING_KEY_LEN: nat := 1952
  const SIGNATURE_LEN: nat := 3309

  /** FIPS 204: signatures decode and verify under the matching key; the sizes are fixed. */
  ghost predicate SignatureLaw(s: Suite) {
    && (forall sk: Bytes :: |VerifyingKey(s, sk)| == VERIFYING_KEY_LEN)
    && (forall sk: Bytes, m: Bytes ::
          && |Sign(s, sk, m)| == SIGNATURE_LEN && SignatureDecodes(s, Sign(s, sk, m))
          && Verify(s, VerifyingKey(s, sk), m, Sign(s, sk, m)))
  }

  ghost predicate Lawful(s: Suite) {
    DhLaw(s) && DeriveLaw(s) && AeadLaw(s) && KemLaw(s) && SizeLaw(s) && SignatureLaw(s)
  }
}
