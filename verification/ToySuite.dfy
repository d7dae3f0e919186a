/**
 * Toy primitives that satisfy every law and whose keys never collide: keys are 32-byte numbers,
 * the exchange adds, and each root derivation counts on from the old root.
 */
module ToySuite {
  import opened Wrappers
  import opened Bytes
  import opened Primitives
  import opened SymmetricRatchet

  /** A number as a key. */
  function Num(n: nat): (k: Bytes)
    ensures |k| == KEY_SIZE
  {
    LittleEndian(n, KEY_SIZE)
  }

  lemma Pow256Monotone(a: nat, b: nat)
    requires a <= b
    ensures Pow256(a) <= Pow256(b)
    decreases b - a
  {
    if a < b {
      Pow256Monotone(a + 1, b);
    }
  }

  /** Different numbers are different keys. */
  lemma NumInjective(a: nat, b: nat)
    requires a < U64 && b < U64
    ensures Num(a) == Num(b) <==> a == b
  {
    NumValue(a);
    NumValue(b);
  }

  lemma NumValue(a: nat)
    requires a < U64
    ensures FromLittleEndian(Num(a)) == a
  {
    Pow256Values();
    Pow256Monotone(8, KEY_SIZE);
    LittleEndianRoundTrip(a, KEY_SIZE);
  }

  /** The first 32 bytes, filled up with zeros. */
  function Clip(a: Bytes): (r: Bytes)
    ensures |r| == KEY_SIZE
    ensures |a| == KEY_SIZE ==> r == a
  {
    seq(KEY_SIZE, i requires 0 <= i < KEY_SIZE => if i < |a| then a[i] else 0)
  }

  function Plus(a: Byte, b: Byte): (r: Byte) {
    var n: int := a;
    (n + b) % 256
  }

  /** A commutative mixture of two keys. */
  function Mix(a: Bytes, b: Bytes): (r: Bytes)
    ensures |r| == KEY_SIZE
  {
    seq(KEY_SIZE, i requires 0 <= i < KEY_SIZE => Plus(Clip(a)[i], Clip(b)[i]))
  }

  /** Header keys 0, 1 and 2 and root 2 at the start; chains repeat their seed, the PQ chain its last secret. */
  function ToyDerive(salt: Bytes, ikm: Bytes, info: Info, n: nat): (r: Bytes)
    ensures |r| == n
  {
    if info == SessionHeaderInfo && n == 96 then Num(0) + Num(1) + Num(2)
    else if info == SessionRootInfo && n == KEY_SIZE then Num(2)
    else if info == DhRootInfo && n == 96 then
      var next := Num(FromLittleEndian(salt) + 1);
      next + next + next
    else if (info == ChainKeyInfo || info == MessageKeyInfo) && n == |salt| then salt
    else if info == PqChainInfo && n == KEY_SIZE then Clip(ikm)
    else Zeros(n)
  }

  function Toy(): (s: Suite) {
    Suite(
      a => Clip(a),
      (a, b) => Some(Mix(a, b)),
      (salt, ikm, info, n) => ToyDerive(salt, ikm, info, n),
      (k: Bytes, _, plain: Bytes, _) => k + plain,
      (k: Bytes, _, sealed: Bytes, _) => if |k| <= |sealed| && sealed[..|k|] == k then Some(sealed[|k|..]) else None,
      a => Clip(a) + Zeros(KEM_PUBLIC_KEY_LEN - KEY_SIZE),
      (publicKey, _) => (Zeros(KEM_CIPHERTEXT_LEN), Clip(publicKey)),
      (a, _) => Clip(a),
      _ => Zeros(VERIFYING_KEY_LEN),
      (_, _) => Zeros(SIGNATURE_LEN),
      (_, _, _) => true,
      _ => true)
  }

  lemma MixCommutes(a: Bytes, b: Bytes)
    ensures Mix(a, Clip(b)) == Mix(b, Clip(a))
  {
    assert Clip(Clip(a)) == Clip(a) && Clip(Clip(b)) == Clip(b);
  }

  lemma ToyDh()
    ensures DhLaw(Toy())
  {
    var s := Toy();
    forall a: Bytes, b: Bytes
      ensures SharedSecret(s, a, PublicKey(s, b)).Some?
      ensures SharedSecret(s, a, PublicKey(s, b)) == SharedSecret(s, b, PublicKey(s, a))
    {
      MixCommutes(a, b);
    }
  }

  /** The sealing key opens, any other key of that length does not. */
  lemma ToyOpens(k: Bytes, k': Bytes, nonce: Bytes, plain: Bytes, aad: Bytes)
    requires |k| == KEY_SIZE && |k'| == KEY_SIZE
    ensures Open(Toy(), k', nonce, Seal(Toy(), k, nonce, plain, aad), aad) == if k' == k then Some(plain) else None
  {
    assert (k + plain)[..KEY_SIZE] == k && (k + plain)[KEY_SIZE..] == plain;
  }

  lemma ToyAead()
    ensures AeadLaw(Toy())
  {
    forall k: Bytes, nonce: Bytes, plain: Bytes, aad: Bytes | |k| == KEY_SIZE
      ensures Open(Toy(), k, nonce, Seal(Toy(), k, nonce, plain, aad), aad) == Some(plain)
    {
      ToyOpens(k, k, nonce, plain, aad);
    }
  }

  /** The public key begins with the secret one, which is what it encapsulates. */
  lemma ToyKem()
    ensures KemLaw(Toy())
  {
    forall a: Bytes ensures Clip(KemPublicKey(Toy(), a)) == Clip(a) {
    }
  }

  /** All laws hold together. */
  lemma ToyLawful()
    ensures Lawful(Toy())
  {
    hide Clip, Mix, DhLaw, AeadLaw, ToyDerive, KemLaw;
    ToyDh();
    ToyAead();
    ToyKem();
  }

  lemma {:induction false} ToyChain(seed: Bytes, n: nat)
    requires |seed| == KEY_SIZE
    ensures ChainKeyAt(Toy(), seed, n) == seed
  {
    if n > 0 {
      ToyChain(seed, n - 1);
    }
  }

  lemma ToyKeyAt(seed: Bytes, n: nat)
    requires |seed| == KEY_SIZE
    ensures KeyAt(Toy(), seed, n) == seed
  {
    ToyChain(seed, n);
  }

  lemma ToyPublic(n: nat)
    ensures PublicKey(Toy(), Num(n)) == Num(n)
  {
  }
}
