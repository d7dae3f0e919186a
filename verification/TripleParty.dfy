/** What `encrypt` and `decrypt` do to one party of a session, in terms of the shared history. */
module TripleParty {
  import opened Wrappers
  import opened Bytes
  import opened Primitives
  import opened SymmetricRatchet
  import opened DhRatchet
  import opened MessageFormat
  import opened Schedule
  import opened TripleRatchet
  import opened HeaderRing

  /** The session of a party in epoch j: ratchet, counters and header keys follow the history. */
  ghost predicate TripleAt(g: History, t: Triple, j: nat)
    requires Sound(g)
  {
    && j < |g.secrets|
    && t.dh.secret == g.secrets[j] && t.dh.root == g.roots[j] && t.dh.steps == Wrap32(j / 2)
    && t.dh.remote == (if j == 0 then None else Some(PublicKey(g.s, g.secrets[j - 1])))
    && t.dh.send == (if j == 0 then None else Some(At(g.s, g.seeds[j], g.counts[j])))
    && t.dh.recv == (if j < 2 then None else Some(At(g.s, g.seeds[j - 1], ReceivedCount(t.dh))))
    && ReceivedCount(t.dh) < U32
    && t.sendingNumber == g.counts[j]
    && t.previousLength == PreviousCount(g, j)
    && RingAt(g, t.ring, j)
  }

  function SlotOf(m: Sent): (slot: Slot) {
    (m.header.dhPublic, m.header.number)
  }

  /** How far the party has gone through the messages of a peer epoch. */
  function Reached(g: History, t: Triple, j: nat, e: nat): (n: nat)
    requires e < |g.counts|
  {
    if e + 1 == j then ReceivedCount(t.dh) else g.counts[e]
  }

  /** The place of message n of epoch e in the cache. */
  function SlotAt(g: History, e: nat, n: nat): (slot: Slot)
    requires e < |g.secrets|
  {
    (PublicKey(g.s, g.secrets[e]), n)
  }

  /** The cache holds the key of message n of epoch e, and it is the right one. */
  predicate Holds(g: History, t: Triple, e: nat, n: nat)
    requires e < |g.secrets| && e < |g.seeds|
  {
    SlotAt(g, e, n) in t.cache && t.cache[SlotAt(g, e, n)].key == MessageKeyOf(g, e, n)
  }

  /**
   * A cached key is filed under a number already passed in an earlier peer epoch e; it is the key
   * of that number in some epoch of the session, though not always in e, and the step recorded with
   * it is the one at which that epoch was received.
   */
  ghost predicate Cached(g: History, t: Triple, j: nat, slot: Slot, e: nat, source: nat)
    requires Sound(g) && j < |g.secrets|
  {
    && PeerEpoch(j, e) && 0 < source < |g.seeds|
    && slot == SlotAt(g, e, slot.1)
    && slot.1 < g.counts[e] && (e + 1 == j ==> slot.1 < ReceivedCount(t.dh))
    && slot in t.cache && t.cache[slot] == Skipped(MessageKeyOf(g, source, slot.1), Wrap32((source + 1) / 2))
  }

  ghost predicate CacheOk(g: History, t: Triple, j: nat)
    requires Sound(g) && j < |g.secrets|
  {
    forall slot :: slot in t.cache ==> exists e, source :: Cached(g, t, j, slot, e, source)
  }

  /**
   * Accounting: every message reached is spent, or its key is held, or its key was dropped; and
   * the key of a spent message is not held. Spent are the messages decrypted and those lost.
   */
  ghost predicate Accounted(g: History, t: Triple, j: nat, spent: set<(nat, nat)>)
    requires Sound(g) && j < |g.secrets|
  {
    && (forall e: nat, n: nat :: PeerEpoch(j, e) && n < Reached(g, t, j, e) ==>
          (e, n) in spent || Holds(g, t, e, n) || SlotAt(g, e, n) in t.dropped)
    && (forall e: nat, n: nat :: (e, n) in spent ==>
          PeerEpoch(j, e) && (e + 1 == j ==> n < ReceivedCount(t.dh)) && !Holds(g, t, e, n))
  }

  // ---------------------------------------------------------------
  // The cache
  // ---------------------------------------------------------------

  /** What storing the keys lo .. hi-1 of a chain under a public key leaves in the cache. */
  ghost predicate Stored(s: Suite, t: Triple, t': Triple, publicKey: Bytes, seed: Bytes, lo: nat, hi: nat) {
    && t' == t.(cache := t'.cache, dropped := t'.dropped)
    && t.dropped <= t'.dropped
    && (forall slot :: slot in t'.cache ==>
          if slot.0 == publicKey && lo <= slot.1 < hi then t'.cache[slot] == Skipped(KeyAt(s, seed, slot.1), t.dh.steps)
          else slot in t.cache && t'.cache[slot] == t.cache[slot])
    && (forall slot :: slot in t.cache ==> slot in t'.cache || slot in t'.dropped)
    && (forall n: nat :: lo <= n < hi ==> (publicKey, n) in t'.cache || (publicKey, n) in t'.dropped)
  }

  lemma StoredOne(s: Suite, t: Triple, publicKey: Bytes, seed: Bytes, n: nat, victim: Cache -> Slot)
    ensures Stored(s, t, Store(t, publicKey, n, KeyAt(s, seed, n), victim), publicKey, seed, n, n + 1)
  {
  }

  lemma StoredNone(s: Suite, t: Triple, publicKey: Bytes, seed: Bytes, n: nat)
    ensures Stored(s, t, t, publicKey, seed, n, n)
  {
  }

  lemma StoredTwice(s: Suite, t: Triple, t1: Triple, t2: Triple, publicKey: Bytes, seed: Bytes, lo: nat, mid: nat,
                    hi: nat)
    requires lo <= mid <= hi
    requires Stored(s, t, t1, publicKey, seed, lo, mid) && Stored(s, t1, t2, publicKey, seed, mid, hi)
    ensures Stored(s, t, t2, publicKey, seed, lo, hi)
  {
  }

  lemma {:induction false} StoreSegment(s: Suite, t: Triple, publicKey: Bytes, seed: Bytes, lo: nat, hi: nat,
                                        victim: Cache -> Slot)
    requires lo <= hi
    ensures Stored(s, t, StoreAll(t, publicKey, Segment(s, seed, lo, hi), victim), publicKey, seed, lo, hi)
    decreases hi - lo
  {
    hide Store, Stored, KeyAt;
    if lo == hi {
      StoredNone(s, t, publicKey, seed, lo);
    } else {
      var t1 := Store(t, publicKey, lo, KeyAt(s, seed, lo), victim);
      var rest := Segment(s, seed, lo + 1, hi);
      assert Segment(s, seed, lo, hi)[1..] == rest;
      assert StoreAll(t, publicKey, Segment(s, seed, lo, hi), victim) == StoreAll(t1, publicKey, rest, victim);
      StoredOne(s, t, publicKey, seed, lo, victim);
      StoreSegment(s, t1, publicKey, seed, lo + 1, hi, victim);
      StoredTwice(s, t, t1, StoreAll(t1, publicKey, rest, victim), publicKey, seed, lo, lo + 1, hi);
    }
  }

  /** Public keys tell epochs apart. */
  lemma SameEpoch(g: History, e: nat, e': nat)
    requires DistinctPublics(g.s, g.secrets) && e < |g.secrets| && e' < |g.secrets|
    requires PublicKey(g.s, g.secrets[e]) == PublicKey(g.s, g.secrets[e'])
    ensures e == e'
  {
  }

  lemma CachedNumber(g: History, t: Triple, j: nat, m: Sent)
    requires Sound(g) && DistinctPublics(g.s, g.secrets) && j < |g.secrets| && CacheOk(g, t, j) && Genuine(g, m)
    requires SlotOf(m) in t.cache
    ensures PeerEpoch(j, m.epoch) && (m.epoch + 1 == j ==> m.header.number < ReceivedCount(t.dh))
  {
    var e, source :| Cached(g, t, j, SlotOf(m), e, source);
    SameEpoch(g, e, m.epoch);
  }

  /** Opening a message with the key cached for it gives its plaintext exactly if that is its own key. */
  lemma CachedKeyOpens(g: History, t: Triple, j: nat, m: Sent)
    requires Sound(g) && AeadLaw(g.s) && DeriveLaw(g.s) && j < |g.secrets| && CacheOk(g, t, j) && Genuine(g, m)
    requires SlotOf(m) in t.cache
    ensures Open(g.s, t.cache[SlotOf(m)].key, m.wire.bodyNonce, m.wire.body, m.wire.header)
         == if Holds(g, t, m.epoch, m.header.number) then Some(m.plaintext) else None
  {
    var e, source :| Cached(g, t, j, SlotOf(m), e, source);
    BodyOpens(g, m, source);
    BodyOpens(g, m, m.epoch);
  }

  /** `try_skipped_keys`, given what its trial decryptions yield. */
  lemma TrySkippedBy(s: Suite, t: Triple, m: Encrypted, h: Header, body: Option<Bytes>)
    requires FirstHeader(s, TrialKeys(t.ring), m) == Some(h) && (h.dhPublic, h.number) in t.cache
    requires Open(s, t.cache[(h.dhPublic, h.number)].key, m.bodyNonce, m.body, m.header) == body
    ensures var t1 := t.(cache := t.cache - {(h.dhPublic, h.number)});
            TrySkipped(s, t, m)
            == if body.None? then (t1, Err(Aead)) else (t1.(totalReceived := t.totalReceived + 1), Ok(Some(body.value)))
  {
  }

  /** A cached key under a held header key is used up, and delivers its message if it is the right one. */
  lemma SkippedHit(g: History, t: Triple, j: nat, m: Sent)
    requires Sound(g) && AeadLaw(g.s) && DeriveLaw(g.s)
    requires j < |g.secrets| && RingAt(g, t.ring, j) && CacheOk(g, t, j) && Genuine(g, m)
    requires SlotOf(m) in t.cache && m.epoch in Trial(j)
    ensures var t1 := t.(cache := t.cache - {SlotOf(m)});
            TrySkipped(g.s, t, m.wire)
            == if Holds(g, t, m.epoch, m.header.number)
               then (t1.(totalReceived := t.totalReceived + 1), Ok(Some(m.plaintext))) else (t1, Err(Aead))
  {
    hide Separated, SealMessage, TrySkipped, FirstHeader, TrialKeys, RingAt, CacheOk, Trial, Holds;
    RingFinds(g, t.ring, j, m);
    CachedKeyOpens(g, t, j, m);
    TrySkippedBy(g.s, t, m.wire, m.header, if Holds(g, t, m.epoch, m.header.number) then Some(m.plaintext) else None);
  }

  lemma SkippedMiss(g: History, t: Triple, j: nat, m: Sent)
    requires Sound(g) && AeadLaw(g.s) && j < |g.secrets| && RingAt(g, t.ring, j) && Genuine(g, m)
    requires SlotOf(m) !in t.cache || m.epoch !in Trial(j)
    ensures TrySkipped(g.s, t, m.wire) == (t, Ok(None))
  {
    RingFinds(g, t.ring, j, m);
  }

  // ---------------------------------------------------------------
  // Recognising the epoch of a message
  // ---------------------------------------------------------------

  /** The previous header key belongs to this epoch. */
  predicate UnderPrevious(j: nat, e: nat) {
    2 <= j && Heard(j)[j / 2 - 1] == e
  }

  /** `try_decrypt_header_and_detect_ratchet`, given what its trial decryptions yield. */
  lemma DetectBy(s: Suite, t: Triple, m: Encrypted, h: Header, next: bool, current: bool, previous: bool)
    requires TryHeader(s, t.ring.nextReceiving, m) == (if next then Some(h) else None)
    requires TryHeader(s, t.ring.receiving, m) == (if current then Some(h) else None)
    requires t.ring.previous.None? ==> !previous
    requires t.ring.previous.Some? ==> TryHeader(s, t.ring.previous.value, m) == (if previous then Some(h) else None)
    ensures Detect(s, t, m)
         == if next then Ok((h, true)) else if current then Ok((h, t.dh.remote != Some(h.dhPublic)))
            else if previous then Ok((h, false)) else Err(HeaderEncryption)
  {
  }

  /** Trial decryption tells the peer's next epoch, the one being received, and older ones apart. */
  lemma DetectEpoch(g: History, t: Triple, j: nat, m: Sent)
    requires Sound(g) && AeadLaw(g.s) && DistinctPublics(g.s, g.secrets)
    requires j < |g.secrets| && RingAt(g, t.ring, j) && Genuine(g, m) && m.epoch % 2 != j % 2 && m.epoch <= j + 1
    requires t.dh.remote == (if j == 0 then None else Some(PublicKey(g.s, g.secrets[j - 1])))
    ensures Detect(g.s, t, m.wire)
         == if m.epoch == j + 1 then Ok((m.header, true))
            else if m.epoch + 1 == j || UnderPrevious(j, m.epoch) then Ok((m.header, false))
            else Err(HeaderEncryption)
  {
    var e := m.epoch;
    HeaderOpens(g, m, Awaited(j));
    HeaderOpens(g, m, Current(j));
    if 2 <= j {
      HeaderOpens(g, m, Heard(j)[j / 2 - 1]);
    }
    DetectBy(g.s, t, m.wire, m.header, e == Awaited(j), e == Current(j), UnderPrevious(j, e));
    CurrentEpochs(j, e);
  }

  /** Where the awaited, current and previous header keys stand relative to the peer's epochs. */
  lemma CurrentEpochs(j: nat, e: nat)
    requires e % 2 != j % 2 && 0 < e <= j + 1
    ensures e == Current(j) <==> (if j == 0 then e == 1 else e + 1 == j && 2 < j)
    ensures j == 2 ==> UnderPrevious(j, 1)
  {
    HeardPeerEpochs(j, j / 2);
    if 2 <= j {
      HeardPeerEpochs(j, j / 2 - 1);
    }
  }

  // ---------------------------------------------------------------
  // Reading the receiving chain
  // ---------------------------------------------------------------

  /** The chain of the epoch being received, at the number reached. */
  ghost predicate Receiving(g: History, t: Triple, j: nat)
    requires Sound(g)
  {
    && 2 <= j < |g.secrets| && ReceivedCount(t.dh) < U32
    && ReceivingAt(g.s, t.dh, g.seeds[j - 1], ReceivedCount(t.dh))
  }

  /** The session after taking message n of the epoch being received, keys stepped over stored. */
  ghost function Taken(g: History, t: Triple, j: nat, n: nat, victim: Cache -> Slot): (t': Triple)
    requires Sound(g) && 2 <= j < |g.secrets| && ReceivedCount(t.dh) <= n
  {
    var seed := g.seeds[j - 1];
    StoreAll(t.(dh := t.dh.(recv := Some(At(g.s, seed, n + 1)))), PublicKey(g.s, g.secrets[j - 1]),
             Segment(g.s, seed, ReceivedCount(t.dh), n), victim)
  }

  /** The last part of `decrypt`, given what the chain and the body yield. */
  lemma OpenBodyBy(s: Suite, t: Triple, h: Header, m: Encrypted, victim: Cache -> Slot, dh: Dh, incoming: Incoming,
                   plaintext: Bytes)
    requires ReceiveKey(s, t.dh, h.number) == (dh, Ok(incoming))
    requires Open(s, incoming.key, m.bodyNonce, m.body, m.header) == Some(plaintext)
    ensures var t1 := StoreAll(t.(dh := dh), h.dhPublic, incoming.skipped, victim);
            OpenBody(s, t, h, m, victim) == (t1.(totalReceived := t1.totalReceived + 1), Ok(plaintext))
  {
  }

  lemma OpenBodyRefused(s: Suite, t: Triple, h: Header, m: Encrypted, victim: Cache -> Slot)
    requires ReceiveKey(s, t.dh, h.number) == (t.dh, Err(Ratchet))
    ensures OpenBody(s, t, h, m, victim) == (t, Err(Ratchet))
  {
  }

  lemma OpenBodyCurrent(g: History, t: Triple, j: nat, m: Sent, victim: Cache -> Slot)
    requires Sound(g) && AeadLaw(g.s) && DeriveLaw(g.s) && Receiving(g, t, j) && Genuine(g, m) && m.epoch + 1 == j
    ensures var n, received := m.header.number, ReceivedCount(t.dh);
            if received <= n < received + MAX_SKIP then
              var t1 := Taken(g, t, j, n, victim);
              OpenBody(g.s, t, m.header, m.wire, victim)
              == (t1.(totalReceived := t1.totalReceived + 1), Ok(m.plaintext))
            else OpenBody(g.s, t, m.header, m.wire, victim) == (t, Err(Ratchet))
  {
    hide StoreAll, Store;
    var n, received, seed := m.header.number, ReceivedCount(t.dh), g.seeds[j - 1];
    ReceiveKeyMeaning(g.s, t.dh, seed, received, n);
    if received <= n < received + MAX_SKIP {
      BodyOpens(g, m, m.epoch);
      OpenBodyBy(g.s, t, m.header, m.wire, victim, t.dh.(recv := Some(At(g.s, seed, n + 1))),
                 Incoming(KeyAt(g.s, seed, n), Segment(g.s, seed, received, n)), m.plaintext);
    } else {
      OpenBodyRefused(g.s, t, m.header, m.wire, victim);
    }
  }

  /** `t1` is `t` with the receiving chain moved on; `t'` has the keys it passed stored under their own epoch. */
  ghost predicate MovedOn(g: History, t: Triple, t1: Triple, t': Triple, j: nat, n: nat)
    requires Sound(g) && 2 <= j < |g.secrets|
  {
    && t1.cache == t.cache && t1.dropped == t.dropped && t1.dh.steps == Wrap32(j / 2)
    && ReceivedCount(t.dh) <= n <= ReceivedCount(t1.dh) && n <= g.counts[j - 1]
    && Stored(g.s, t1, t', PublicKey(g.s, g.secrets[j - 1]), g.seeds[j - 1], ReceivedCount(t.dh), n)
  }

  lemma StoredCacheOk(g: History, t: Triple, t1: Triple, t': Triple, j: nat, n: nat)
    requires Sound(g) && 2 <= j < |g.secrets| && CacheOk(g, t, j) && MovedOn(g, t, t1, t', j, n)
    ensures CacheOk(g, t', j)
  {
    forall slot | slot in t'.cache ensures exists e, source :: Cached(g, t', j, slot, e, source) {
      if slot.0 == PublicKey(g.s, g.secrets[j - 1]) && ReceivedCount(t.dh) <= slot.1 < n {
        assert Cached(g, t', j, slot, j - 1, j - 1);
      } else {
        var e, source :| Cached(g, t, j, slot, e, source);
        assert Cached(g, t', j, slot, e, source);
      }
    }
  }

  /** A message of the epoch being received is cached only if its number is reached. */
  lemma CachedReached(g: History, t: Triple, j: nat, n: nat)
    requires Sound(g) && DistinctPublics(g.s, g.secrets) && 2 <= j < |g.secrets| && CacheOk(g, t, j)
    requires SlotAt(g, j - 1, n) in t.cache
    ensures n < ReceivedCount(t.dh)
  {
    var e, source :| Cached(g, t, j, SlotAt(g, j - 1, n), e, source);
    SameEpoch(g, e, j - 1);
  }

  /** Storing keys of the epoch being received leaves the other slots, unless they are dropped. */
  lemma HeldAfterStoring(g: History, t: Triple, t1: Triple, t': Triple, j: nat, n: nat, e: nat, k: nat)
    requires Sound(g) && DistinctPublics(g.s, g.secrets) && 2 <= j < |g.secrets| && CacheOk(g, t, j)
    requires MovedOn(g, t, t1, t', j, n) && PeerEpoch(j, e)
    ensures Holds(g, t, e, k) ==> Holds(g, t', e, k) || SlotAt(g, e, k) in t'.dropped
    ensures Holds(g, t', e, k) ==> Holds(g, t, e, k) || (e == j - 1 && ReceivedCount(t.dh) <= k < n)
    ensures e == j - 1 && ReceivedCount(t.dh) <= k < n ==> Holds(g, t', e, k) || SlotAt(g, e, k) in t'.dropped
  {
    var slot := SlotAt(g, e, k);
    if slot.0 == PublicKey(g.s, g.secrets[j - 1]) {
      SameEpoch(g, e, j - 1);
      if slot in t.cache {
        CachedReached(g, t, j, k);
      }
    }
  }

  /** The books after keys up to n were passed, message n itself perhaps taken. */
  lemma StoredAccounted(g: History, t: Triple, t1: Triple, t': Triple, j: nat, spent: set<(nat, nat)>, n: nat,
                        taken: bool)
    requires Sound(g) && DistinctPublics(g.s, g.secrets) && 2 <= j < |g.secrets|
    requires CacheOk(g, t, j) && Accounted(g, t, j, spent) && MovedOn(g, t, t1, t', j, n)
    requires ReceivedCount(t1.dh) == if taken then n + 1 else n
    ensures Accounted(g, t', j, if taken then spent + {(j - 1, n)} else spent)
  {
    hide Holds, Stored;
    var spent' := if taken then spent + {(j - 1, n)} else spent;
    StoredReceived(g, t, t1, t', j, n);
    forall e: nat, k: nat | PeerEpoch(j, e) && k < Reached(g, t', j, e)
      ensures (e, k) in spent' || Holds(g, t', e, k) || SlotAt(g, e, k) in t'.dropped
    {
      HeldAfterStoring(g, t, t1, t', j, n, e, k);
      if e != j - 1 || k < ReceivedCount(t.dh) {
        assert k < Reached(g, t, j, e);
      }
    }
    forall e: nat, k: nat | (e, k) in spent'
      ensures PeerEpoch(j, e) && (e + 1 == j ==> k < ReceivedCount(t'.dh)) && !Holds(g, t', e, k)
    {
      HeldAfterStoring(g, t, t1, t', j, n, e, k);
      if (e, k) !in spent {
        UnreachedNotHeld(g, t, j, n);
      }
    }
  }

  lemma StoredReceived(g: History, t: Triple, t1: Triple, t': Triple, j: nat, n: nat)
    requires Sound(g) && 2 <= j < |g.secrets| && MovedOn(g, t, t1, t', j, n)
    ensures ReceivedCount(t'.dh) == ReceivedCount(t1.dh) && t.dropped <= t'.dropped
  {
  }

  lemma UnreachedNotHeld(g: History, t: Triple, j: nat, n: nat)
    requires Sound(g) && DistinctPublics(g.s, g.secrets) && 2 <= j < |g.secrets| && CacheOk(g, t, j)
    requires ReceivedCount(t.dh) <= n
    ensures !Holds(g, t, j - 1, n)
  {
    hide CacheOk, Cached;
    if Holds(g, t, j - 1, n) {
      CachedReached(g, t, j, n);
    }
  }

  lemma TakenOk(g: History, t: Triple, j: nat, spent: set<(nat, nat)>, n: nat, victim: Cache -> Slot)
    requires Sound(g) && DistinctPublics(g.s, g.secrets) && TripleAt(g, t, j) && 2 <= j
    requires CacheOk(g, t, j) && Accounted(g, t, j, spent)
    requires ReceivedCount(t.dh) <= n < g.counts[j - 1]
    ensures var t' := Taken(g, t, j, n, victim);
            && TripleAt(g, t', j) && CacheOk(g, t', j) && Accounted(g, t', j, spent + {(j - 1, n)})
            && ReceivedCount(t'.dh) == n + 1 && t'.totalReceived == t.totalReceived && t'.totalSent == t.totalSent
  {
    hide StoreAll, Store, Accounted, CacheOk, Segment, RingAt;
    var seed, publicKey := g.seeds[j - 1], PublicKey(g.s, g.secrets[j - 1]);
    var t1 := t.(dh := t.dh.(recv := Some(At(g.s, seed, n + 1))));
    var t' := Taken(g, t, j, n, victim);
    StoreSegment(g.s, t1, publicKey, seed, ReceivedCount(t.dh), n, victim);
    StoredCacheOk(g, t, t1, t', j, n);
    StoredAccounted(g, t, t1, t', j, spent, n, true);
  }

  // ---------------------------------------------------------------
  // Entering the peer's next epoch
  // ---------------------------------------------------------------

  /** The session with the rest of the old receiving chain stored. */
  ghost function Saved(g: History, t: Triple, j: nat, victim: Cache -> Slot): (t': Triple)
    requires Sound(g) && j < |g.secrets|
  {
    if j < 2 || g.counts[j - 1] <= ReceivedCount(t.dh) then t else
      var seed, end := g.seeds[j - 1], g.counts[j - 1];
      StoreAll(t.(dh := t.dh.(recv := Some(At(g.s, seed, end)))), PublicKey(g.s, g.secrets[j - 1]),
               Segment(g.s, seed, ReceivedCount(t.dh), end), victim)
  }

  /** The unread rest of the old chain is too long to be stored. */
  predicate RestTooLong(g: History, t: Triple, j: nat)
    requires j < |g.counts|
  {
    2 <= j && g.counts[j - 1] > ReceivedCount(t.dh) + MAX_SKIP
  }

  /** `SaveOldChain`, given what the old chain yields. */
  lemma SaveOldChainBy(s: Suite, t: Triple, h: Header, victim: Cache -> Slot, oldRemote: Bytes, dh: Dh, keys: Keys)
    requires t.dh.remote == Some(oldRemote) && SkipRemaining(s, t.dh, h.previousLength) == (dh, Ok(keys))
    ensures SaveOldChain(s, t, h, victim) == (StoreAll(t.(dh := dh), oldRemote, keys, victim), Ok(()))
  {
  }

  lemma SaveOldChainMeaning(g: History, t: Triple, j: nat, m: Sent, victim: Cache -> Slot)
    requires Sound(g) && TripleAt(g, t, j) && Genuine(g, m) && m.epoch == j + 1
    ensures RestTooLong(g, t, j) ==> SaveOldChain(g.s, t, m.header, victim) == (t, Err(Ratchet))
    ensures !RestTooLong(g, t, j) ==> SaveOldChain(g.s, t, m.header, victim) == (Saved(g, t, j, victim), Ok(()))
  {
    hide StoreAll;
    if j < 2 {
      if j == 1 {
        SaveOldChainBy(g.s, t, m.header, victim, t.dh.remote.value, t.dh, []);
        StoreNothing(t, t.dh.remote.value, victim);
      }
    } else {
      var seed, received, end := g.seeds[j - 1], ReceivedCount(t.dh), g.counts[j - 1];
      SkipRemainingMeaning(g.s, t.dh, seed, received, end);
      if end <= received {
        SaveOldChainBy(g.s, t, m.header, victim, t.dh.remote.value, t.dh, []);
        StoreNothing(t, t.dh.remote.value, victim);
      } else if !RestTooLong(g, t, j) {
        var dh := t.dh.(recv := Some(At(g.s, seed, end)));
        assert SkipRemaining(g.s, t.dh, end) == (dh, Ok(Segment(g.s, seed, received, end)));
        SaveOldChainBy(g.s, t, m.header, victim, t.dh.remote.value, dh, Segment(g.s, seed, received, end));
      }
    }
  }

  lemma StoreNothing(t: Triple, publicKey: Bytes, victim: Cache -> Slot)
    ensures StoreAll(t, publicKey, [], victim) == t
  {
  }

  lemma SavedOk(g: History, t: Triple, j: nat, spent: set<(nat, nat)>, victim: Cache -> Slot)
    requires Sound(g) && DistinctPublics(g.s, g.secrets) && TripleAt(g, t, j)
    requires CacheOk(g, t, j) && Accounted(g, t, j, spent)
    ensures var t' := Saved(g, t, j, victim);
            && TripleAt(g, t', j) && CacheOk(g, t', j) && Accounted(g, t', j, spent)
            && (2 <= j ==> g.counts[j - 1] <= ReceivedCount(t'.dh))
            && t'.totalReceived == t.totalReceived && t'.totalSent == t.totalSent
  {
    hide StoreAll, Store, Accounted, CacheOk, Segment, RingAt;
    if 2 <= j && ReceivedCount(t.dh) < g.counts[j - 1] {
      var seed, received, end := g.seeds[j - 1], ReceivedCount(t.dh), g.counts[j - 1];
      var t1 := t.(dh := t.dh.(recv := Some(At(g.s, seed, end))));
      var t' := Saved(g, t, j, victim);
      StoreSegment(g.s, t1, PublicKey(g.s, g.secrets[j - 1]), seed, received, end, victim);
      StoredCacheOk(g, t, t1, t', j, end);
      StoredAccounted(g, t, t1, t', j, spent, end, false);
    }
  }

  /** `ratchet_step`, given what its two derivations yield. */
  lemma RatchetStepBy(s: Suite, d: Dh, remote: Bytes, newSecret: Bytes, out: RootOutput, out': RootOutput)
    requires DeriveLaw(s)
    requires SharedSecret(s, d.secret, remote).Some?
    requires out == RootKdf(s, d.root, SharedSecret(s, d.secret, remote).value)
    requires SharedSecret(s, newSecret, remote).Some?
    requires out' == RootKdf(s, out.root, SharedSecret(s, newSecret, remote).value)
    ensures RatchetStep(s, d, remote, newSecret)
         == (Dh(newSecret, Some(remote), out'.root, Some(Chain(out'.chain, 0)), Some(Chain(out.chain, 0)),
                Wrap32(d.steps + 1)),
             Ok(HeaderKeys(out.header, out'.header)))
  {
  }

  lemma StepCountNext(j: nat)
    ensures Wrap32(Wrap32(j / 2) + 1) == Wrap32((j + 2) / 2)
  {
  }

  /** The DH step itself: the ratchet moves to epoch j + 2 of the extended history. */
  lemma StepMeaning(g: History, t: Triple, j: nat, newSecret: Bytes)
    requires Sound(g) && DhLaw(g.s) && DeriveLaw(g.s) && Derived(g)
    requires TripleAt(g, t, j) && |g.secrets| == j + 2
    ensures var g' := Extended(g, newSecret);
            && Sound(g') && Derived(g') && Extends(g, g')
            && RatchetStep(g.s, t.dh, PublicKey(g.s, g.secrets[j + 1]), newSecret)
               == (Dh(newSecret, Some(PublicKey(g.s, g.secrets[j + 1])), g'.roots[j + 2],
                      Some(At(g.s, g'.seeds[j + 2], 0)), Some(At(g.s, g'.seeds[j + 1], 0)), Wrap32((j + 2) / 2)),
                   Ok(HeaderKeys(g'.headerKeys[j + 3], g'.headerKeys[j + 4])))
  {
    hide RatchetStep, RootKdf, Wrap32;
    var g', remote := Extended(g, newSecret), PublicKey(g.s, g.secrets[j + 1]);
    ExtendedSound(g, newSecret);
    StepCountNext(j);
    var out := RootOutput(g.roots[j + 1], g.seeds[j + 1], g.headerKeys[j + 3]);
    var out' := RootOutput(g'.roots[j + 2], g'.seeds[j + 2], g'.headerKeys[j + 4]);
    assert out == Derivation(g.s, g.roots[j], g.secrets[j], g.secrets[j + 1]);
    assert out' == Derivation(g.s, g.roots[j + 1], g.secrets[j + 1], newSecret);
    assert SharedSecret(g.s, newSecret, remote) == SharedSecret(g.s, g.secrets[j + 1], PublicKey(g.s, newSecret));
    RatchetStepBy(g.s, t.dh, remote, newSecret, out, out');
  }

  lemma StepIntoMeaning(g: History, t: Triple, j: nat, newSecret: Bytes)
    requires Sound(g) && DhLaw(g.s) && DeriveLaw(g.s) && Derived(g)
    requires TripleAt(g, t, j) && |g.secrets| == j + 2
    ensures var g' := Extended(g, newSecret);
            var (t', r) := StepInto(g.s, t, PublicKey(g.s, g.secrets[j + 1]), newSecret);
            && Sound(g') && Derived(g') && Extends(g, g') && r == Ok(())
            && TripleAt(g', t', j + 2) && ReceivedCount(t'.dh) == 0
            && t'.cache == t.cache && t'.dropped == t.dropped
            && t'.totalReceived == t.totalReceived && t'.totalSent == t.totalSent
  {
    hide RatchetStep, RotateRing, Derivation;
    var g' := Extended(g, newSecret);
    StepMeaning(g, t, j, newSecret);
    RingStable(g, newSecret, t.ring, j);
    RingRotates(g', t.ring, j, HeaderKeys(g'.headerKeys[j + 3], g'.headerKeys[j + 4]));
  }

  /** A longer history with the same beginning. */
  ghost predicate Extends(g: History, g': History) {
    g.s == g'.s && g.secrets <= g'.secrets && g.seeds <= g'.seeds && g.counts <= g'.counts
  }

  /** Moving on to epoch j' = j + 2 with the old chain passed to its end keeps the books in order. */
  lemma EnteredCacheOk(g: History, g': History, t: Triple, t': Triple, j: nat, j': nat)
    requires Sound(g) && Sound(g') && Extends(g, g') && j' == j + 2 && j' < |g'.secrets| && j < |g.secrets|
    requires CacheOk(g, t, j) && t'.cache == t.cache
    ensures CacheOk(g', t', j')
  {
    hide Cached;
    forall slot | slot in t'.cache ensures exists e, source :: Cached(g', t', j', slot, e, source) {
      var e, source :| Cached(g, t, j, slot, e, source);
      EnteredCached(g, g', t, t', j, j', slot, e, source);
    }
  }

  lemma EnteredCached(g: History, g': History, t: Triple, t': Triple, j: nat, j': nat, slot: Slot, e: nat, source: nat)
    requires Sound(g) && Sound(g') && Extends(g, g') && j' == j + 2 && j' < |g'.secrets| && j < |g.secrets|
    requires Cached(g, t, j, slot, e, source) && t'.cache == t.cache
    ensures Cached(g', t', j', slot, e, source)
  {
    assert g'.secrets[e] == g.secrets[e] && g'.seeds[source] == g.seeds[source] && g'.counts[e] == g.counts[e];
  }

  lemma HoldsExtends(g: History, g': History, t: Triple, t': Triple, e: nat, n: nat)
    requires Sound(g) && Sound(g') && Extends(g, g') && e < |g.secrets| && t'.cache == t.cache
    ensures Holds(g', t', e, n) == Holds(g, t, e, n) && SlotAt(g', e, n) == SlotAt(g, e, n)
  {
    assert g'.secrets[e] == g.secrets[e] && g'.seeds[e] == g.seeds[e];
  }

  lemma EnteredAccounted(g: History, g': History, t: Triple, t': Triple, j: nat, j': nat, spent: set<(nat, nat)>)
    requires Sound(g) && Sound(g') && Extends(g, g') && j' == j + 2 && j' < |g'.secrets| && j < |g.secrets|
    requires Accounted(g, t, j, spent) && t'.cache == t.cache && t'.dropped == t.dropped
    requires (2 <= j ==> g.counts[j - 1] <= ReceivedCount(t.dh)) && ReceivedCount(t'.dh) == 0
    ensures Accounted(g', t', j', spent)
  {
    hide Holds, SlotAt;
    forall e: nat, k: nat | PeerEpoch(j', e) && k < Reached(g', t', j', e)
      ensures (e, k) in spent || Holds(g', t', e, k) || SlotAt(g', e, k) in t'.dropped
    {
      assert PeerEpoch(j, e) && k < Reached(g, t, j, e);
      HoldsExtends(g, g', t, t', e, k);
    }
    forall e: nat, k: nat | (e, k) in spent
      ensures PeerEpoch(j', e) && (e + 1 == j' ==> k < ReceivedCount(t'.dh)) && !Holds(g', t', e, k)
    {
      HoldsExtends(g, g', t, t', e, k);
    }
  }

  // ---------------------------------------------------------------
  // A late message read off the wrong chain
  // ---------------------------------------------------------------

  /** The messages lo .. hi-1 of an epoch. */
  function Numbers(e: nat, lo: nat, hi: nat): (r: set<(nat, nat)>)
    ensures forall x :: x in r <==> x.0 == e && lo <= x.1 < hi
    decreases hi - lo
  {
    if lo >= hi then {} else {(e, lo)} + Numbers(e, lo + 1, hi)
  }

  /**
   * The messages lost when message n of epoch e is read off the chain of epoch j - 1, which stood at
   * `reached`: those whose keys leave the chain, and those whose cached keys are overwritten.
   */
  function Damage(j: nat, e: nat, reached: nat, n: nat): (lost: set<(nat, nat)>)
    requires 0 < j
  {
    Numbers(j - 1, reached, n + 1) + Numbers(e, reached, n)
  }

  lemma DamageMembers(j: nat, e: nat, reached: nat, n: nat, x: (nat, nat))
    requires 0 < j
    ensures x in Damage(j, e, reached, n) <==>
              (x.0 == j - 1 && reached <= x.1 <= n) || (x.0 == e && reached <= x.1 < n)
  {
  }

  /** The session afterwards: the chain stands behind n, the keys it passed are filed under epoch e. */
  ghost function Burnt(g: History, t: Triple, j: nat, e: nat, n: nat, victim: Cache -> Slot): (t': Triple)
    requires Sound(g) && 2 <= j < |g.secrets| && e < |g.secrets| && ReceivedCount(t.dh) <= n
  {
    var seed := g.seeds[j - 1];
    StoreAll(t.(dh := t.dh.(recv := Some(At(g.s, seed, n + 1)))), PublicKey(g.s, g.secrets[e]),
             Segment(g.s, seed, ReceivedCount(t.dh), n), victim)
  }

  /** `t1` is `t` with the chain of epoch j - 1 behind n; `t'` has the keys passed stored under epoch e. */
  ghost predicate Misfiled(g: History, t: Triple, t1: Triple, t': Triple, j: nat, e: nat, n: nat)
    requires Sound(g) && 2 <= j < |g.secrets|
  {
    && PeerEpoch(j, e) && e + 1 < j && n < g.counts[e]
    && t1.cache == t.cache && t1.dropped == t.dropped && t1.dh.steps == Wrap32(j / 2)
    && ReceivedCount(t.dh) <= n && ReceivedCount(t1.dh) == n + 1
    && Stored(g.s, t1, t', PublicKey(g.s, g.secrets[e]), g.seeds[j - 1], ReceivedCount(t.dh), n)
  }

  lemma MisfiledCacheOk(g: History, t: Triple, t1: Triple, t': Triple, j: nat, e: nat, n: nat)
    requires Sound(g) && 2 <= j < |g.secrets| && CacheOk(g, t, j) && Misfiled(g, t, t1, t', j, e, n)
    ensures CacheOk(g, t', j)
  {
    forall slot | slot in t'.cache ensures exists e', source :: Cached(g, t', j, slot, e', source) {
      if slot.0 == PublicKey(g.s, g.secrets[e]) && ReceivedCount(t.dh) <= slot.1 < n {
        assert Cached(g, t', j, slot, e, j - 1);
      } else {
        var e', source :| Cached(g, t, j, slot, e', source);
        assert Cached(g, t', j, slot, e', source);
      }
    }
  }

  /** Misfiled keys are wrong where they are, and everything else is as it was, unless dropped. */
  lemma HeldAfterMisfiling(g: History, t: Triple, t1: Triple, t': Triple, j: nat, e: nat, n: nat, e': nat, k: nat)
    requires Sound(g) && DistinctPublics(g.s, g.secrets) && DistinctMessageKeys(g) && 2 <= j < |g.secrets|
    requires Misfiled(g, t, t1, t', j, e, n) && PeerEpoch(j, e')
    ensures var hit := e' == e && ReceivedCount(t.dh) <= k < n;
            && (hit ==> !Holds(g, t', e', k))
            && (!hit && Holds(g, t, e', k) ==> Holds(g, t', e', k) || SlotAt(g, e', k) in t'.dropped)
            && (Holds(g, t', e', k) ==> Holds(g, t, e', k))
  {
    if SlotAt(g, e', k).0 == PublicKey(g.s, g.secrets[e]) {
      SameEpoch(g, e, e');
      if ReceivedCount(t.dh) <= k < n {
        assert MessageKeyOf(g, e, k) != MessageKeyOf(g, j - 1, k);
      }
    }
  }

  lemma MisfiledAccounted(g: History, t: Triple, t1: Triple, t': Triple, j: nat, spent: set<(nat, nat)>, e: nat, n: nat)
    requires Sound(g) && DistinctPublics(g.s, g.secrets) && DistinctMessageKeys(g) && 2 <= j < |g.secrets|
    requires CacheOk(g, t, j) && Accounted(g, t, j, spent) && Misfiled(g, t, t1, t', j, e, n)
    ensures Accounted(g, t', j, spent + Damage(j, e, ReceivedCount(t.dh), n))
  {
    hide Holds, Stored, SlotAt, Damage, CacheOk;
    var received := ReceivedCount(t.dh);
    var spent' := spent + Damage(j, e, received, n);
    MisfiledReceived(g, t, t1, t', j, e, n);
    forall e': nat, k: nat | PeerEpoch(j, e') && k < Reached(g, t', j, e')
      ensures (e', k) in spent' || Holds(g, t', e', k) || SlotAt(g, e', k) in t'.dropped
    {
      DamageMembers(j, e, received, n, (e', k));
      HeldAfterMisfiling(g, t, t1, t', j, e, n, e', k);
      if !(e' == j - 1 && received <= k) {
        assert k < Reached(g, t, j, e');
      }
    }
    forall e': nat, k: nat | (e', k) in spent'
      ensures PeerEpoch(j, e') && (e' + 1 == j ==> k < ReceivedCount(t'.dh)) && !Holds(g, t', e', k)
    {
      DamageMembers(j, e, received, n, (e', k));
      HeldAfterMisfiling(g, t, t1, t', j, e, n, e', k);
      if e' == j - 1 && received <= k {
        UnreachedNotHeld(g, t, j, k);
      }
    }
  }

  lemma MisfiledReceived(g: History, t: Triple, t1: Triple, t': Triple, j: nat, e: nat, n: nat)
    requires Sound(g) && 2 <= j < |g.secrets| && Misfiled(g, t, t1, t', j, e, n)
    ensures ReceivedCount(t'.dh) == n + 1 && t.dropped <= t'.dropped
  {
  }

  lemma BurntOk(g: History, t: Triple, j: nat, spent: set<(nat, nat)>, e: nat, n: nat, victim: Cache -> Slot)
    requires Sound(g) && DistinctPublics(g.s, g.secrets) && DistinctMessageKeys(g) && TripleAt(g, t, j) && 2 <= j
    requires CacheOk(g, t, j) && Accounted(g, t, j, spent)
    requires PeerEpoch(j, e) && e + 1 < j && ReceivedCount(t.dh) <= n < g.counts[e]
    ensures var t' := Burnt(g, t, j, e, n, victim);
            && TripleAt(g, t', j) && CacheOk(g, t', j)
            && Accounted(g, t', j, spent + Damage(j, e, ReceivedCount(t.dh), n))
            && ReceivedCount(t'.dh) == n + 1 && t'.totalReceived == t.totalReceived && t'.totalSent == t.totalSent
            && t.dropped <= t'.dropped
  {
    hide StoreAll, Store, Accounted, CacheOk, Segment, RingAt, DistinctMessageKeys, Damage;
    var seed := g.seeds[j - 1];
    var t1 := t.(dh := t.dh.(recv := Some(At(g.s, seed, n + 1))));
    var t' := Burnt(g, t, j, e, n, victim);
    StoreSegment(g.s, t1, PublicKey(g.s, g.secrets[e]), seed, ReceivedCount(t.dh), n, victim);
    MisfiledCacheOk(g, t, t1, t', j, e, n);
    MisfiledAccounted(g, t, t1, t', j, spent, e, n);
  }
}
