/** The symmetric-key ratchet: a KDF chain that yields one message key per step. */
module SymmetricRatchet {
  import opened Wrappers
  import opened Bytes
  import opened Primitives

  /** Largest number of keys one `skip_to` may produce. */
  const MAX_SKIP: nat := 1000

  /** The value of a ratchet: its chain key and the number of the next message key. */
  datatype Chain = Chain(key: Bytes, number: nat)

  /** Message keys with their numbers. */
  type Keys = seq<(nat, Bytes)>

  function NextChainKey(s: Suite, ck: Bytes): (r: Bytes) {
    Derive(s, ck, [], ChainKeyInfo, KEY_SIZE)
  }

  function MessageKey(s: Suite, ck: Bytes): (r: Bytes) {
    Derive(s, ck, [], MessageKeyInfo, KEY_SIZE)
  }

  // ---------------------------------------------------------------
  // The reference: the i-th key of the pure chain grown from a seed
  // ---------------------------------------------------------------

  function ChainKeyAt(s: Suite, seed: Bytes, i: nat): (r: Bytes) {
    if i == 0 then seed else NextChainKey(s, ChainKeyAt(s, seed, i - 1))
  }

  function KeyAt(s: Suite, seed: Bytes, i: nat): (r: Bytes) {
    MessageKey(s, ChainKeyAt(s, seed, i))
  }

  /** The ratchet that has produced the keys 0 .. n-1 of the chain grown from `seed`. */
  function At(s: Suite, seed: Bytes, n: nat): (c: Chain) {
    Chain(ChainKeyAt(s, seed, n), n)
  }

  /** The numbered keys lo .. hi-1 of the chain grown from `seed`. */
  function Segment(s: Suite, seed: Bytes, lo: nat, hi: nat): (ks: Keys)
    requires lo <= hi
    ensures |ks| == hi - lo
    ensures forall i :: 0 <= i < hi - lo ==> ks[i] == (lo + i, KeyAt(s, seed, lo + i))
  {
    seq(hi - lo, i requires 0 <= i < hi - lo => var n: nat := lo + i; (n, KeyAt(s, seed, n)))
  }

  /** How the chain grows: next chain key and message key are derived from the chain key, each for its purpose. */
  lemma ChainGrows(s: Suite, seed: Bytes, i: nat)
    ensures ChainKeyAt(s, seed, 0) == seed
    ensures ChainKeyAt(s, seed, i + 1) == s.derive(ChainKeyAt(s, seed, i), [], ChainKeyInfo, 32)
    ensures KeyAt(s, seed, i) == s.derive(ChainKeyAt(s, seed, i), [], MessageKeyInfo, 32)
  {
  }

  /** If the derivation tells purposes apart, no message key of any chain is ever a later chain key of any other. */
  lemma MessageKeysAreNoChainKeys(s: Suite, seed: Bytes, i: nat, seed': Bytes, j: nat)
    requires forall a: Bytes, b: Bytes ::
               Derive(s, a, [], MessageKeyInfo, KEY_SIZE) != Derive(s, b, [], ChainKeyInfo, KEY_SIZE)
    ensures KeyAt(s, seed, i) != ChainKeyAt(s, seed', j + 1)
  {
    hide ChainKeyAt;
    ChainGrows(s, seed, i);
    ChainGrows(s, seed', j);
    assert Derive(s, ChainKeyAt(s, seed, i), [], MessageKeyInfo, KEY_SIZE)
      != Derive(s, ChainKeyAt(s, seed', j), [], ChainKeyInfo, KEY_SIZE);
  }

  // ---------------------------------------------------------------
  // The operations, on values
  // ---------------------------------------------------------------

  function Advanced(s: Suite, c: Chain): (r: Chain) {
    Chain(NextChainKey(s, c.key), Wrap32(c.number + 1))
  }

  function AdvancedBy(s: Suite, c: Chain, k: nat): (r: Chain) {
    if k == 0 then c else Advanced(s, AdvancedBy(s, c, k - 1))
  }

  /** The keys produced by `k` calls of `advance`, each under the number it had. */
  function KeysFrom(s: Suite, c: Chain, k: nat): (ks: Keys)
    ensures |ks| == k
  {
    if k == 0 then [] else
      var last := AdvancedBy(s, c, k - 1);
      KeysFrom(s, c, k - 1) + [(last.number, MessageKey(s, last.key))]
  }

  /** Number of keys `skip_to(target)` sets out to produce: a `u32`, so it wraps at 2^32. */
  function SkipCount(c: Chain, target: nat): (n: nat)
    requires c.number <= target
  {
    Wrap32(target - c.number + 1)
  }

  /** `skip_to`: a target already passed or too far ahead is refused and leaves the chain alone. */
  function Skip(s: Suite, c: Chain, target: nat): (r: (Chain, Result<Keys>)) {
    if target < c.number || SkipCount(c, target) > MAX_SKIP then (c, Err(Ratchet))
    else
      (AdvancedBy(s, c, SkipCount(c, target)), Ok(KeysFrom(s, c, SkipCount(c, target))))
  }

  // ---------------------------------------------------------------
  // What the operations yield, in terms of the pure chain
  // ---------------------------------------------------------------

  /** The ratchet after key n - 1: behind the last `u32` number it starts counting from 0 again. */
  function AtWrapped(s: Suite, seed: Bytes, n: nat): (c: Chain) {
    if n < U32 then At(s, seed, n) else Chain(ChainKeyAt(s, seed, n), 0)
  }

  lemma {:induction false} AdvancedByIsAt(s: Suite, seed: Bytes, n: nat, k: nat)
    requires n < U32 && n + k <= U32
    ensures AdvancedBy(s, At(s, seed, n), k) == AtWrapped(s, seed, n + k)
  {
    if k == 0 {
    } else {
      AdvancedByIsAt(s, seed, n, k - 1);
    }
  }

  lemma {:induction false} KeysFromIsSegment(s: Suite, seed: Bytes, n: nat, k: nat)
    requires n < U32 && n + k <= U32
    ensures KeysFrom(s, At(s, seed, n), k) == Segment(s, seed, n, n + k)
  {
    hide AdvancedBy, ChainKeyAt;
    if k == 0 {
    } else {
      KeysFromIsSegment(s, seed, n, k - 1);
      AdvancedByIsAt(s, seed, n, k - 1);
    }
  }

  /** The one request whose count of keys wraps to zero: the last number, of a fresh chain. */
  predicate CountWraps(n: nat, target: nat) {
    n == 0 && target == U32 - 1
  }

  /**
   * `skip_to` for every chain and every target: except for the one request whose count wraps, it
   * succeeds exactly within MAX_SKIP, and then yields the consecutive keys of the pure chain from
   * the current number up to and including the target.
   */
  lemma SkipYieldsSegment(s: Suite, seed: Bytes, n: nat, target: nat)
    requires n < U32 && target < U32
    ensures Skip(s, At(s, seed, n), target)
         == if CountWraps(n, target) then (At(s, seed, n), Ok([]))
            else if n <= target < n + MAX_SKIP
            then (AtWrapped(s, seed, target + 1), Ok(Segment(s, seed, n, target + 1)))
            else (At(s, seed, n), Err(Ratchet))
  {
    if n <= target {
      AdvancedByIsAt(s, seed, n, target - n + 1);
      KeysFromIsSegment(s, seed, n, target - n + 1);
    }
  }

  /** A chain split in the middle is the same chain. */
  lemma SegmentSplit(s: Suite, seed: Bytes, lo: nat, mid: nat, hi: nat)
    requires lo <= mid <= hi
    ensures Segment(s, seed, lo, mid) + Segment(s, seed, mid, hi) == Segment(s, seed, lo, hi)
  {
  }

  /**
   * Exactly when `skip_to` reports success with no key at all: on a fresh chain, for the target
   * 2^32 - 1. The key asked for is then never delivered.
   */
  lemma SkipWithoutKeys(s: Suite, c: Chain, target: nat)
    requires c.number < U32 && target < U32
    ensures Skip(s, c, target).1 == Ok([]) <==> CountWraps(c.number, target)
  {
  }

  /** The window: a target not yet passed is reached exactly if that takes at most 1000 keys. */
  lemma SkipWindow(s: Suite, c: Chain, target: nat)
    requires c.number < U32 && target < U32 && !CountWraps(c.number, target)
    ensures Skip(s, c, target).1.Ok? <==> c.number <= target < c.number + 1000
  {
  }

  /** `SymmetricRatchet`. */
  class SymmetricRatchet {
    const suite: Suite
    var chainKey: Bytes
    var messageNumber: nat

    ghost predicate Valid()
      reads this
    {
      messageNumber < U32
    }

    ghost function Value(): (c: Chain)
      reads this
    {
      Chain(chainKey, messageNumber)
    }

    constructor (s: Suite, ck: Bytes)
      ensures Valid() && suite == s && Value() == At(s, ck, 0)
    {
      suite := s;
      chainKey := ck;
      messageNumber := 0;
    }

    method Advance() returns (mk: Bytes)
      requires Valid()
      modifies this
      ensures Valid()
      ensures Value() == Advanced(suite, old(Value()))
      ensures mk == MessageKey(suite, old(chainKey))
    {
      mk := MessageKey(suite, chainKey);
      chainKey := NextChainKey(suite, chainKey);
      messageNumber := Wrap32(messageNumber + 1);
    }

    method SkipTo(target: nat) returns (r: Result<Keys>)
      requires Valid() && target < U32
      modifies this
      ensures Valid()
      ensures (Value(), r) == Skip(suite, old(Value()), target)
    {
      hide MessageKey, Advanced;
      if target < messageNumber {
        return Err(Ratchet);
      }
      var skipCount := Wrap32(target - messageNumber + 1);
      if skipCount > MAX_SKIP {
        return Err(Ratchet);
      }
      var keys: Keys := [];
      for i := 0 to skipCount
        invariant Valid()
        invariant Value() == AdvancedBy(suite, old(Value()), i)
        invariant keys == KeysFrom(suite, old(Value()), i)
      {
        var n := messageNumber;
        var mk := Advance();
        keys := keys + [(n, mk)];
      }
      r := Ok(keys);
    }
  }
}
