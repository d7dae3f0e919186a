/** When `decrypt` delivers a genuine message, and what it leaves behind. */
module TripleDelivery {
  import opened Wrappers
  import opened Bytes
  import opened Primitives
  import opened SymmetricRatchet
  import opened DhRatchet
  import opened PqRatchet
  import opened MessageFormat
  import opened Schedule
  import opened TripleRatchet
  import opened HeaderRing
  import opened TripleParty

  /** The laws of the primitives, and a history whose keys do not collide. */
  ghost predicate Laws(s: Suite) {
    DhLaw(s) && DeriveLaw(s) && AeadLaw(s) && KemLaw(s)
  }

  ghost predicate HistoryOk(g: History) {
    && Laws(g.s) && Sound(g) && Derived(g)
    && DistinctPublics(g.s, g.secrets) && DistinctMessageKeys(g)
  }

  /**
   * The session follows the history, every cached key is a key of the session, and every message is
   * accounted for: decrypted, lost, held, dropped or still to come.
   */
  ghost predicate SessionOk(g: History, t: Triple, j: nat, got: set<(nat, nat)>, lost: set<(nat, nat)>)
    requires Sound(g)
  {
    && j < |g.secrets| && TripleAt(g, t, j) && CacheOk(g, t, j) && Accounted(g, t, j, got + lost)
    && got !! lost && |got| == t.totalReceived
  }

  /** A message of the peer that could reach a party in epoch j. */
  ghost predicate FromPeer(g: History, j: nat, m: Sent)
    requires Sound(g)
  {
    Genuine(g, m) && m.epoch % 2 != j % 2 && m.epoch <= j + 1
  }

  /**
   * A late message misread: its key is not cached, but the previous header key opens its header,
   * so `decrypt` takes it for a message of the epoch being received and reads its number off the
   * wrong chain.
   */
  predicate Misread(s: Suite, t: Triple, m: Sent) {
    && SlotOf(m) !in t.cache
    && t.ring.previous.Some? && TryHeader(s, t.ring.previous.value, m.wire).Some?
    && t.dh.remote.Some? && t.dh.remote != Some(m.header.dhPublic)
    && ReceivedCount(t.dh) <= m.header.number < ReceivedCount(t.dh) + MAX_SKIP
  }

  /**
   * Exactly the messages `decrypt` delivers: a rightly cached key whose header key is still held, a
   * new number within the window of the epoch being received, or the peer's next epoch if neither
   * the rest of the old chain nor the message number exceeds the window.
   */
  ghost predicate Deliverable(g: History, t: Triple, j: nat, m: Sent)
    requires Sound(g) && j < |g.secrets| && Genuine(g, m)
  {
    if SlotOf(m) in t.cache then Holds(g, t, m.epoch, m.header.number) && m.epoch in Trial(j)
    else if m.epoch + 1 == j then ReceivedCount(t.dh) <= m.header.number < ReceivedCount(t.dh) + MAX_SKIP
    else m.epoch == j + 1 && !RestTooLong(g, t, j) && m.header.number < MAX_SKIP
  }

  // ---------------------------------------------------------------
  // The branches of `decrypt`
  // ---------------------------------------------------------------

  lemma DecryptFromCache(s: Suite, t: Triple, m: Encrypted, coins: ReceiveCoins, t1: Triple, plaintext: Bytes)
    requires DeriveLaw(s) && TrySkipped(s, t, m) == (t1, Ok(Some(plaintext)))
    ensures Decrypt(s, t, m, coins) == (t1, Ok(plaintext))
  {
  }

  lemma DecryptSpoilt(s: Suite, t: Triple, m: Encrypted, coins: ReceiveCoins, t1: Triple, e: Error)
    requires DeriveLaw(s) && TrySkipped(s, t, m) == (t1, Err(e))
    ensures Decrypt(s, t, m, coins) == (t1, Err(e))
  {
  }

  lemma DecryptUnknown(s: Suite, t: Triple, m: Encrypted, coins: ReceiveCoins, e: Error)
    requires DeriveLaw(s) && TrySkipped(s, t, m) == (t, Ok(None)) && Detect(s, t, m) == Err(e)
    ensures Decrypt(s, t, m, coins) == (t, Err(e))
  {
  }

  lemma DecryptSameEpoch(s: Suite, t: Triple, m: Encrypted, coins: ReceiveCoins, h: Header)
    requires DeriveLaw(s) && TrySkipped(s, t, m) == (t, Ok(None)) && Detect(s, t, m) == Ok((h, false))
    ensures Decrypt(s, t, m, coins) == OpenBody(s, ReceivePq(s, t, h, coins), h, m, coins.victim)
  {
    hide OpenBody, ReceivePq, EnterEpoch;
  }

  lemma DecryptNewEpoch(s: Suite, t: Triple, m: Encrypted, coins: ReceiveCoins, h: Header, t2: Triple)
    requires DeriveLaw(s) && TrySkipped(s, t, m) == (t, Ok(None)) && Detect(s, t, m) == Ok((h, true))
    requires EnterEpoch(s, t, h, coins) == (t2, Ok(()))
    ensures Decrypt(s, t, m, coins) == OpenBody(s, ReceivePq(s, t2, h, coins), h, m, coins.victim)
  {
    hide OpenBody, ReceivePq, EnterEpoch;
  }

  lemma DecryptRefused(s: Suite, t: Triple, m: Encrypted, coins: ReceiveCoins, h: Header, t2: Triple, e: Error)
    requires DeriveLaw(s) && TrySkipped(s, t, m) == (t, Ok(None)) && Detect(s, t, m) == Ok((h, true))
    requires EnterEpoch(s, t, h, coins) == (t2, Err(e))
    ensures Decrypt(s, t, m, coins) == (t2, Err(e))
  {
    hide OpenBody, ReceivePq, EnterEpoch;
  }

  /** Sessions that differ only in what delivery does not depend on: the PQ ratchet and the totals. */
  predicate SameKeys(t: Triple, t': Triple) {
    t' == t.(pq := t'.pq, stepsSincePq := t'.stepsSincePq, pqInterval := t'.pqInterval,
             totalSent := t'.totalSent, totalReceived := t'.totalReceived)
  }

  lemma SameKeysCacheOk(g: History, t: Triple, t': Triple, j: nat)
    requires Sound(g) && j < |g.secrets| && CacheOk(g, t, j) && t'.dh == t.dh
    requires forall slot :: slot in t'.cache ==> slot in t.cache && t'.cache[slot] == t.cache[slot]
    ensures CacheOk(g, t', j)
  {
    forall slot | slot in t'.cache ensures exists e, source :: Cached(g, t', j, slot, e, source) {
      var e, source :| Cached(g, t, j, slot, e, source);
      assert Cached(g, t', j, slot, e, source);
    }
  }

  lemma SameKeysAccounted(g: History, t: Triple, t': Triple, j: nat, spent: set<(nat, nat)>)
    requires Sound(g) && j < |g.secrets| && Accounted(g, t, j, spent)
    requires t'.cache == t.cache && t'.dropped == t.dropped && t'.dh == t.dh
    ensures Accounted(g, t', j, spent)
  {
    forall e: nat, n: nat | e < |g.secrets| ensures Holds(g, t', e, n) == Holds(g, t, e, n) {
    }
    forall e: nat | e < |g.counts| ensures Reached(g, t', j, e) == Reached(g, t, j, e) {
    }
  }

  lemma SameKeysOk(g: History, t: Triple, t': Triple, j: nat, spent: set<(nat, nat)>)
    requires Sound(g) && TripleAt(g, t, j) && CacheOk(g, t, j) && Accounted(g, t, j, spent) && SameKeys(t, t')
    ensures TripleAt(g, t', j) && CacheOk(g, t', j) && Accounted(g, t', j, spent)
  {
    hide Accounted, CacheOk, RingAt;
    SameKeysCacheOk(g, t, t', j);
    SameKeysAccounted(g, t, t', j, spent);
  }

  // ---------------------------------------------------------------
  // Case by case
  // ---------------------------------------------------------------

  /** What a call of `decrypt` must leave: a sound session, and the plaintext exactly if promised. */
  ghost predicate Outcome(g: History, t': Triple, r: Result<Bytes>, j: nat, got: set<(nat, nat)>, lost: set<(nat, nat)>,
                          m: Sent, delivered: bool)
    requires Sound(g)
  {
    && SessionOk(g, t', j, if delivered then got + {(m.epoch, m.header.number)} else got, lost)
    && (if delivered then r == Ok(m.plaintext) && (m.epoch, m.header.number) !in got + lost else r.Err?)
  }

  /** A message about to be delivered was not spent before. */
  lemma NotYetSpent(g: History, t: Triple, j: nat, spent: set<(nat, nat)>, m: Sent)
    requires Sound(g) && j < |g.secrets| && Accounted(g, t, j, spent) && Genuine(g, m)
    requires Holds(g, t, m.epoch, m.header.number) || (m.epoch + 1 == j && ReceivedCount(t.dh) <= m.header.number)
          || m.epoch > j
    ensures (m.epoch, m.header.number) !in spent
  {
  }

  lemma UncachedAt(g: History, t: Triple, t': Triple, j: nat)
    requires Sound(g) && TripleAt(g, t, j) && t' == t.(cache := t'.cache, dropped := t'.dropped)
    ensures TripleAt(g, t', j)
  {
    hide RingAt, At;
  }

  /** A key taken out of the cache: its message is spent if the key was the right one. */
  lemma UncachedAccounted(g: History, t: Triple, t': Triple, j: nat, spent: set<(nat, nat)>, e: nat, n: nat)
    requires Sound(g) && DistinctPublics(g.s, g.secrets) && j < |g.secrets| && Accounted(g, t, j, spent)
    requires PeerEpoch(j, e) && (e + 1 == j ==> n < ReceivedCount(t.dh))
    requires t'.dh == t.dh && t'.dropped == t.dropped && t'.cache == t.cache - {SlotAt(g, e, n)}
    ensures Accounted(g, t', j, if Holds(g, t, e, n) then spent + {(e, n)} else spent)
  {
    var spent' := if Holds(g, t, e, n) then spent + {(e, n)} else spent;
    forall e': nat, n': nat | PeerEpoch(j, e') && n' < Reached(g, t', j, e')
      ensures (e', n') in spent' || Holds(g, t', e', n') || SlotAt(g, e', n') in t'.dropped
    {
      assert n' < Reached(g, t, j, e');
      if SlotAt(g, e', n') == SlotAt(g, e, n) {
        SameEpoch(g, e, e');
      }
    }
  }

  /** A cached key under a held header key: used up, and the message delivered exactly if it was the right key. */
  lemma DecryptCached(g: History, t: Triple, j: nat, got: set<(nat, nat)>, lost: set<(nat, nat)>, m: Sent,
                      coins: ReceiveCoins)
    requires HistoryOk(g) && SessionOk(g, t, j, got, lost) && FromPeer(g, j, m)
    requires SlotOf(m) in t.cache && m.epoch in Trial(j)
    ensures var (t', r) := Decrypt(g.s, t, m.wire, coins);
            && Outcome(g, t', r, j, got, lost, m, Holds(g, t, m.epoch, m.header.number))
            && t'.dh == t.dh && t'.totalSent == t.totalSent
  {
    hide Decrypt, TrySkipped, TripleAt, CacheOk, Accounted, Separated, SealMessage, Trial, DistinctMessageKeys, Derived;
    hide DhLaw, KemLaw, HeaderOk;
    var held := Holds(g, t, m.epoch, m.header.number);
    var t1 := t.(cache := t.cache - {SlotOf(m)});
    TripleAtRing(g, t, j);
    SkippedHit(g, t, j, m);
    CachedNumber(g, t, j, m);
    UncachedAt(g, t, t1, j);
    SameKeysCacheOk(g, t, t1, j);
    UncachedAccounted(g, t, t1, j, got + lost, m.epoch, m.header.number);
    if held {
      NotYetSpent(g, t, j, got + lost, m);
      assert got + {(m.epoch, m.header.number)} + lost == got + lost + {(m.epoch, m.header.number)};
      SameKeysOk(g, t1, t1.(totalReceived := t.totalReceived + 1), j, got + {(m.epoch, m.header.number)} + lost);
      DecryptFromCache(g.s, t, m.wire, coins, t1.(totalReceived := t.totalReceived + 1), m.plaintext);
    } else {
      DecryptSpoilt(g.s, t, m.wire, coins, t1, Aead);
    }
  }

  lemma TripleAtRing(g: History, t: Triple, j: nat)
    requires Sound(g) && TripleAt(g, t, j)
    ensures RingAt(g, t.ring, j) && j < |g.secrets|
    ensures t.dh.remote == (if j == 0 then None else Some(PublicKey(g.s, g.secrets[j - 1])))
    ensures 2 <= j ==> Receiving(g, t, j)
  {
  }

  /** A message read in order steps over none, so nothing is stored. */
  lemma TakenInOrder(g: History, t: Triple, j: nat, victim: Cache -> Slot)
    requires Sound(g) && 2 <= j < |g.secrets|
    ensures Taken(g, t, j, ReceivedCount(t.dh), victim).cache == t.cache
  {
    var n := ReceivedCount(t.dh);
    var t1 := t.(dh := t.dh.(recv := Some(At(g.s, g.seeds[j - 1], n + 1))));
    assert Segment(g.s, g.seeds[j - 1], n, n) == [];
    StoreNothing(t1, PublicKey(g.s, g.secrets[j - 1]), victim);
  }

  /** Reading message n of the epoch being received. */
  lemma TakenOutcome(g: History, t: Triple, j: nat, got: set<(nat, nat)>, lost: set<(nat, nat)>, m: Sent,
                     victim: Cache -> Slot)
    requires HistoryOk(g) && SessionOk(g, t, j, got, lost) && Genuine(g, m) && m.epoch + 1 == j && 2 <= j
    ensures var (t', r) := OpenBody(g.s, t, m.header, m.wire, victim);
            var taken := ReceivedCount(t.dh) <= m.header.number < ReceivedCount(t.dh) + MAX_SKIP;
            && Outcome(g, t', r, j, got, lost, m, taken)
            && t'.dh.remote == t.dh.remote && t'.totalSent == t.totalSent
            && ReceivedCount(t'.dh) == (if taken then m.header.number + 1 else ReceivedCount(t.dh))
            && (m.header.number == ReceivedCount(t.dh) ==> t'.cache == t.cache)
  {
    hide OpenBody, StoreAll, Store, CacheOk, Accounted, RingAt, Derived, DistinctPublics, DistinctMessageKeys;
    hide DhLaw, KemLaw;
    hide AeadLaw, DeriveLaw, SealMessage, HeaderOk, Segment, Separated, TripleAt, Taken, Holds;
    var n := m.header.number;
    TripleAtRing(g, t, j);
    OpenBodyCurrent(g, t, j, m, victim);
    if ReceivedCount(t.dh) <= n < ReceivedCount(t.dh) + MAX_SKIP {
      NotYetSpent(g, t, j, got + lost, m);
      TakenOk(g, t, j, got + lost, n, victim);
      if n == ReceivedCount(t.dh) {
        TakenInOrder(g, t, j, victim);
      }
      var t1 := Taken(g, t, j, n, victim);
      TripleAtRing(g, t1, j);
      assert got + {(j - 1, n)} + lost == got + lost + {(j - 1, n)};
      SameKeysOk(g, t1, t1.(totalReceived := t1.totalReceived + 1), j, got + {(j - 1, n)} + lost);
    }
  }

  /** The PQ part of a message touches nothing its delivery depends on. */
  lemma PqAside(g: History, t: Triple, j: nat, got: set<(nat, nat)>, lost: set<(nat, nat)>, h: Header,
                coins: ReceiveCoins)
    requires Sound(g) && SessionOk(g, t, j, got, lost)
    ensures SessionOk(g, ReceivePq(g.s, t, h, coins), j, got, lost) && SameKeys(t, ReceivePq(g.s, t, h, coins))
    ensures ReceivePq(g.s, t, h, coins) == t.(pq := ReceivePq(g.s, t, h, coins).pq)
  {
    hide TripleAt, CacheOk, Accounted, Complete;
    SameKeysOk(g, t, ReceivePq(g.s, t, h, coins), j, got + lost);
  }

  lemma DecryptReceiving(g: History, t: Triple, j: nat, got: set<(nat, nat)>, lost: set<(nat, nat)>, m: Sent,
                         coins: ReceiveCoins)
    requires HistoryOk(g) && SessionOk(g, t, j, got, lost) && FromPeer(g, j, m)
    requires SlotOf(m) !in t.cache && m.epoch + 1 == j
    ensures var (t', r) := Decrypt(g.s, t, m.wire, coins);
            && Outcome(g, t', r, j, got, lost, m, Deliverable(g, t, j, m))
            && t'.dh.remote == t.dh.remote && t'.totalSent == t.totalSent
            && (Deliverable(g, t, j, m) ==> ReceivedCount(t'.dh) == m.header.number + 1)
            && (m.header.number == ReceivedCount(t.dh) ==> t'.cache == t.cache)
  {
    hide Decrypt, TrySkipped, Detect, OpenBody, ReceivePq, CacheOk, Accounted, Outcome, SealMessage, Derived, TripleAt;
    hide DistinctMessageKeys, Separated;
    var t1 := ReceivePq(g.s, t, m.header, coins);
    TripleAtRing(g, t, j);
    SkippedMiss(g, t, j, m);
    DetectEpoch(g, t, j, m);
    DecryptSameEpoch(g.s, t, m.wire, coins, m.header);
    PqAside(g, t, j, got, lost, m.header, coins);
    TakenOutcome(g, t1, j, got, lost, m, coins.victim);
  }

  // ---------------------------------------------------------------
  // Late messages
  // ---------------------------------------------------------------

  /**
   * A late message of the previous header key is misread exactly if it is not cached and its number
   * lies in the window.
   */
  lemma LateMisread(g: History, t: Triple, j: nat, m: Sent)
    requires HistoryOk(g) && TripleAt(g, t, j) && FromPeer(g, j, m) && m.epoch + 1 < j && UnderPrevious(j, m.epoch)
    ensures Misread(g.s, t, m) <==>
              SlotOf(m) !in t.cache && ReceivedCount(t.dh) <= m.header.number < ReceivedCount(t.dh) + MAX_SKIP
    ensures m.epoch in Trial(j)
  {
    hide SealMessage, DhLaw, DeriveLaw, KemLaw, AeadLaw, HeaderOk, Derived, Retained, DistinctMessageKeys;
    hide Separated, TryHeader;
    assert Trial(j)[2] == m.epoch;
    HeaderOpens(g, m, m.epoch);
    assert PublicKey(g.s, g.secrets[m.epoch]) != PublicKey(g.s, g.secrets[j - 1]);
  }

  /** Only a message of the epoch before the one being received can be misread. */
  lemma MisreadEpoch(g: History, t: Triple, j: nat, m: Sent)
    requires HistoryOk(g) && TripleAt(g, t, j) && FromPeer(g, j, m) && Misread(g.s, t, m)
    ensures 2 <= j && UnderPrevious(j, m.epoch) && m.epoch + 1 < j
  {
    hide SealMessage, DhLaw, DeriveLaw, KemLaw, AeadLaw, HeaderOk, Derived, Retained, DistinctMessageKeys;
    hide Separated, TryHeader;
    hide Heard;
    var e := Heard(j)[j / 2 - 1];
    HeaderOpens(g, m, e);
    HeardPeerEpochs(j, j / 2 - 1);
  }

  /** The last part of `decrypt` when the key is the wrong one: the chain has moved on all the same. */
  lemma OpenBodyWrongKey(s: Suite, t: Triple, h: Header, m: Encrypted, victim: Cache -> Slot, dh: Dh,
                         incoming: Incoming)
    requires ReceiveKey(s, t.dh, h.number) == (dh, Ok(incoming))
    requires Open(s, incoming.key, m.bodyNonce, m.body, m.header) == None
    ensures OpenBody(s, t, h, m, victim) == (StoreAll(t.(dh := dh), h.dhPublic, incoming.skipped, victim), Err(Aead))
  {
  }

  /** A misread message: refused, but the chain has moved on and its keys are misfiled. */
  lemma DecryptMisread(g: History, t: Triple, j: nat, m: Sent, coins: ReceiveCoins)
    requires HistoryOk(g) && TripleAt(g, t, j) && FromPeer(g, j, m) && Misread(g.s, t, m)
    ensures 2 <= j < |g.secrets| && m.epoch + 1 < j
    ensures Decrypt(g.s, t, m.wire, coins)
         == (Burnt(g, ReceivePq(g.s, t, m.header, coins), j, m.epoch, m.header.number, coins.victim), Err(Aead))
  {
    hide Derived, SealMessage, TryHeader, Decrypt, OpenBody, StoreAll, Detect, TrySkipped, Trial, Complete;
    hide ReceiveKey, Segment;
    hide KemLaw, DhLaw, DistinctPublics, HeaderOk, DistinctMessageKeys, Separated, RingAt;
    MisreadEpoch(g, t, j, m);
    var n, seed := m.header.number, g.seeds[j - 1];
    TripleAtRing(g, t, j);
    SkippedMiss(g, t, j, m);
    DetectEpoch(g, t, j, m);
    DecryptSameEpoch(g.s, t, m.wire, coins, m.header);
    var t1 := ReceivePq(g.s, t, m.header, coins);
    ReceiveKeyMeaning(g.s, t1.dh, seed, ReceivedCount(t1.dh), n);
    BodyOpens(g, m, j - 1);
    OpenBodyWrongKey(g.s, t1, m.header, m.wire, coins.victim, t1.dh.(recv := Some(At(g.s, seed, n + 1))),
                     Incoming(KeyAt(g.s, seed, n), Segment(g.s, seed, ReceivedCount(t1.dh), n)));
  }

  /** What is lost to a misread message: its damage, save what was decrypted before. */
  function LostTo(t: Triple, j: nat, got: set<(nat, nat)>, m: Sent): (lost: set<(nat, nat)>)
    requires 0 < j
  {
    Damage(j, m.epoch, ReceivedCount(t.dh), m.header.number) - got
  }

  lemma MisreadOutcome(g: History, t: Triple, j: nat, got: set<(nat, nat)>, lost: set<(nat, nat)>, m: Sent,
                       coins: ReceiveCoins)
    requires HistoryOk(g) && SessionOk(g, t, j, got, lost) && FromPeer(g, j, m) && Misread(g.s, t, m)
    ensures 2 <= j
    ensures var (t', r) := Decrypt(g.s, t, m.wire, coins);
            && Outcome(g, t', r, j, got, lost + LostTo(t, j, got, m), m, false)
            && t'.dh.remote == t.dh.remote && t'.totalSent == t.totalSent
  {
    hide Decrypt, CacheOk, Accounted, SealMessage, Derived, Separated, DistinctMessageKeys, ReceivePq, Damage;
    hide Segment, StoreAll;
    hide TryHeader, RingAt;
    var n := m.header.number;
    DecryptMisread(g, t, j, m, coins);
    PqAside(g, t, j, got, lost, m.header, coins);
    var t1 := ReceivePq(g.s, t, m.header, coins);
    BurntOk(g, t1, j, got + lost, m.epoch, n, coins.victim);
    var damage := Damage(j, m.epoch, ReceivedCount(t.dh), n);
    assert got + (lost + (damage - got)) == got + lost + damage;
  }

  /** A message of an epoch left behind that is neither found in the cache nor misread: refused. */
  lemma DecryptLate(g: History, t: Triple, j: nat, got: set<(nat, nat)>, lost: set<(nat, nat)>, m: Sent,
                    coins: ReceiveCoins)
    requires HistoryOk(g) && SessionOk(g, t, j, got, lost) && FromPeer(g, j, m)
    requires (SlotOf(m) !in t.cache || m.epoch !in Trial(j)) && m.epoch + 1 < j && !Misread(g.s, t, m)
    ensures var (t', r) := Decrypt(g.s, t, m.wire, coins);
            && Outcome(g, t', r, j, got, lost, m, false)
            && t' == (if UnderPrevious(j, m.epoch) then ReceivePq(g.s, t, m.header, coins) else t)
  {
    hide Decrypt, TrySkipped, Detect, OpenBody, ReceivePq, CacheOk, Accounted, SealMessage, Derived, Misread, TripleAt;
    hide DistinctMessageKeys, Separated;
    var t1 := ReceivePq(g.s, t, m.header, coins);
    TripleAtRing(g, t, j);
    SkippedMiss(g, t, j, m);
    DetectEpoch(g, t, j, m);
    if UnderPrevious(j, m.epoch) {
      LateMisread(g, t, j, m);
      DecryptSameEpoch(g.s, t, m.wire, coins, m.header);
      PqAside(g, t, j, got, lost, m.header, coins);
      ReceiveKeyMeaning(g.s, t1.dh, g.seeds[j - 1], ReceivedCount(t1.dh), m.header.number);
      OpenBodyRefused(g.s, t1, m.header, m.wire, coins.victim);
    } else {
      DecryptUnknown(g.s, t, m.wire, coins, HeaderEncryption);
    }
  }

  // ---------------------------------------------------------------
  // The peer's next epoch
  // ---------------------------------------------------------------

  /** The old chain was read to its end. */
  ghost predicate NothingLeft(g: History, t: Triple, j: nat)
    requires Sound(g) && j < |g.secrets|
  {
    j < 2 || g.counts[j - 1] <= ReceivedCount(t.dh)
  }

  /** `EnterEpoch` for a genuine message of the peer's next epoch. */
  lemma EnterEpochMeaning(g: History, t: Triple, j: nat, got: set<(nat, nat)>, lost: set<(nat, nat)>, m: Sent,
                          coins: ReceiveCoins)
    requires HistoryOk(g) && SessionOk(g, t, j, got, lost) && Genuine(g, m) && m.epoch == j + 1 && |g.secrets| == j + 2
    ensures var g' := Extended(g, coins.dhSecret);
            var (t', r) := EnterEpoch(g.s, t, m.header, coins);
            if RestTooLong(g, t, j) then (t', r) == (t, Err(Ratchet))
            else
              && Sound(g') && Derived(g') && Extends(g, g') && r == Ok(()) && SessionOk(g', t', j + 2, got, lost)
              && ReceivedCount(t'.dh) == 0 && t'.totalSent == t.totalSent
              && (NothingLeft(g, t, j) ==> t'.cache == t.cache)
  {
    hide SaveOldChain, StepInto, StoreAll, Extended, Derived, SealMessage, CacheOk, Accounted, RingAt, Separated;
    hide DistinctMessageKeys;
    SaveOldChainMeaning(g, t, j, m, coins.victim);
    if !RestTooLong(g, t, j) {
      var t1 := Saved(g, t, j, coins.victim);
      SavedOk(g, t, j, got + lost, coins.victim);
      StepIntoMeaning(g, t1, j, coins.dhSecret);
      var t2 := StepInto(g.s, t1, m.header.dhPublic, coins.dhSecret).0;
      var g' := Extended(g, coins.dhSecret);
      EnteredCacheOk(g, g', t1, t2, j, j + 2);
      EnteredAccounted(g, g', t1, t2, j, j + 2, got + lost);
    }
  }

  /** A longer history keeps a genuine message genuine, if the new keys do not open it. */
  lemma GenuineStable(g: History, newSecret: Bytes, m: Sent)
    requires Sound(g) && DhLaw(g.s) && DeriveLaw(g.s) && Genuine(g, m)
    requires Sound(Extended(g, newSecret)) && Separated(Extended(g, newSecret), m)
    ensures Genuine(Extended(g, newSecret), m)
  {
    hide SealMessage, HeaderOk, Derivation, Separated;
  }

  /** The generated ratchet key is new, and so are the message keys derived with it. */
  ghost predicate FreshEpoch(g: History, newSecret: Bytes)
    requires DhLaw(g.s) && DeriveLaw(g.s) && 0 < |g.secrets| == |g.roots|
  {
    && FreshSecret(g.s, g.secrets, newSecret)
    && Sound(Extended(g, newSecret)) && DistinctMessageKeys(Extended(g, newSecret))
  }

  lemma ExtendedOk(g: History, newSecret: Bytes)
    requires HistoryOk(g) && FreshEpoch(g, newSecret)
    ensures HistoryOk(Extended(g, newSecret))
  {
    hide DistinctMessageKeys;
    ExtendedSound(g, newSecret);
    DistinctExtended(g.s, g.secrets, newSecret);
  }

  lemma DecryptNext(g: History, t: Triple, j: nat, got: set<(nat, nat)>, lost: set<(nat, nat)>, m: Sent,
                    coins: ReceiveCoins)
    requires HistoryOk(g) && SessionOk(g, t, j, got, lost) && FromPeer(g, j, m)
    requires m.epoch == j + 1 && |g.secrets| == j + 2 && FreshEpoch(g, coins.dhSecret)
    requires Separated(Extended(g, coins.dhSecret), m)
    ensures SlotOf(m) !in t.cache
    ensures var g' := Extended(g, coins.dhSecret);
            var (t', r) := Decrypt(g.s, t, m.wire, coins);
            if RestTooLong(g, t, j) then (t', r) == (t, Err(Ratchet))
            else
              && HistoryOk(g') && Outcome(g', t', r, j + 2, got, lost, m, m.header.number < MAX_SKIP)
              && t'.dh.remote == Some(PublicKey(g.s, g.secrets[j + 1])) && t'.totalSent == t.totalSent
              && (m.header.number < MAX_SKIP ==> ReceivedCount(t'.dh) == m.header.number + 1)
              && (m.header.number == 0 && NothingLeft(g, t, j) ==> t'.cache == t.cache)
  {
    hide Decrypt, TrySkipped, Detect, EnterEpoch, OpenBody, ReceivePq, Extended, Accounted, Outcome;
    hide SealMessage, Derived;
    hide CacheOk, TripleAt, DistinctMessageKeys, Separated;
    if SlotOf(m) in t.cache {
      CachedNumber(g, t, j, m);
    }
    TripleAtRing(g, t, j);
    SkippedMiss(g, t, j, m);
    DetectEpoch(g, t, j, m);
    EnterEpochMeaning(g, t, j, got, lost, m, coins);
    var t2 := EnterEpoch(g.s, t, m.header, coins).0;
    if RestTooLong(g, t, j) {
      DecryptRefused(g.s, t, m.wire, coins, m.header, t2, Ratchet);
    } else {
      DecryptNewEpoch(g.s, t, m.wire, coins, m.header, t2);
      EnteredOutcome(g, t2, j, got, lost, m, coins);
    }
  }

  /** The rest of `decrypt` after entering epoch j + 2. */
  lemma EnteredOutcome(g: History, t: Triple, j: nat, got: set<(nat, nat)>, lost: set<(nat, nat)>, m: Sent,
                       coins: ReceiveCoins)
    requires HistoryOk(g) && Genuine(g, m) && m.epoch == j + 1 && |g.secrets| == j + 2 && FreshEpoch(g, coins.dhSecret)
    requires Separated(Extended(g, coins.dhSecret), m)
    requires SessionOk(Extended(g, coins.dhSecret), t, j + 2, got, lost) && ReceivedCount(t.dh) == 0
    ensures var g' := Extended(g, coins.dhSecret);
            var (t', r) := OpenBody(g.s, ReceivePq(g.s, t, m.header, coins), m.header, m.wire, coins.victim);
            && HistoryOk(g') && Outcome(g', t', r, j + 2, got, lost, m, m.header.number < MAX_SKIP)
            && t'.dh.remote == Some(PublicKey(g.s, g.secrets[j + 1])) && t'.totalSent == t.totalSent
            && (m.header.number < MAX_SKIP ==> ReceivedCount(t'.dh) == m.header.number + 1)
            && (m.header.number == 0 ==> t'.cache == t.cache)
  {
    hide OpenBody, ReceivePq, Accounted, Outcome, SealMessage, Derived, RingAt, CacheOk, Derivation;
    hide DistinctPublics, HeaderOk;
    hide DistinctMessageKeys, Separated;
    var g' := Extended(g, coins.dhSecret);
    ExtendedOk(g, coins.dhSecret);
    GenuineStable(g, coins.dhSecret, m);
    PqAside(g', t, j + 2, got, lost, m.header, coins);
    var t1 := ReceivePq(g.s, t, m.header, coins);
    TakenOutcome(g', t1, j + 2, got, lost, m, coins.victim);
    assert g'.s == g.s && g'.secrets[j + 1] == g.secrets[j + 1];
    assert ReceivedCount(t1.dh) == 0;
  }

  // ---------------------------------------------------------------
  // Any message of the peer
  // ---------------------------------------------------------------

  /** Whether the message takes the receiver into the peer's next epoch. */
  ghost predicate Moves(g: History, t: Triple, j: nat, m: Sent)
    requires Sound(g) && j < |g.secrets|
  {
    m.epoch == j + 1 && !RestTooLong(g, t, j)
  }

  /** The messages lost after a delivery: more only if the message was misread. */
  function LostAfter(s: Suite, t: Triple, j: nat, got: set<(nat, nat)>, lost: set<(nat, nat)>,
                     m: Sent): (lost': set<(nat, nat)>) {
    if Misread(s, t, m) && 0 < j then lost + LostTo(t, j, got, m) else lost
  }

  /**
   * `decrypt` on any message of the peer: it delivers exactly the deliverable ones, to the very
   * plaintext, none that is spent, and the session stays sound.
   */
  lemma DecryptOutcome(g: History, t: Triple, j: nat, got: set<(nat, nat)>, lost: set<(nat, nat)>, m: Sent,
                       coins: ReceiveCoins)
    requires HistoryOk(g) && SessionOk(g, t, j, got, lost) && FromPeer(g, j, m)
    requires (m.epoch == j + 1 ==> |g.secrets| == j + 2) && FreshEpoch(g, coins.dhSecret)
    requires Separated(Extended(g, coins.dhSecret), m)
    ensures var g' := if Moves(g, t, j, m) then Extended(g, coins.dhSecret) else g;
            var j' := if Moves(g, t, j, m) then j + 2 else j;
            var (t', r) := Decrypt(g.s, t, m.wire, coins);
            && HistoryOk(g')
            && Outcome(g', t', r, j', got, LostAfter(g.s, t, j, got, lost, m), m, Deliverable(g, t, j, m))
            && (t'.dh.remote != t.dh.remote <==> Moves(g, t, j, m)) && t'.totalSent == t.totalSent
  {
    hide Decrypt, Extended, CacheOk, Accounted, Derived, SealMessage, Trial, TripleAt, DistinctMessageKeys, Separated;
    hide Damage, ReceivePq, Holds;
    if m.epoch == j + 1 {
      DecryptNext(g, t, j, got, lost, m, coins);
      RemoteChanges(g, t, j);
      if Misread(g.s, t, m) {
        MisreadEpoch(g, t, j, m);
      }
    } else if SlotOf(m) in t.cache && m.epoch in Trial(j) {
      DecryptCached(g, t, j, got, lost, m, coins);
    } else if m.epoch + 1 == j {
      ReceivedEpochHeld(j);
      DecryptReceiving(g, t, j, got, lost, m, coins);
      if Misread(g.s, t, m) {
        MisreadEpoch(g, t, j, m);
      }
    } else if Misread(g.s, t, m) {
      MisreadOutcome(g, t, j, got, lost, m, coins);
    } else {
      DecryptLate(g, t, j, got, lost, m, coins);
      PqAside(g, t, j, got, lost, m.header, coins);
    }
  }

  /** A number within the window of the epoch being received, or of the peer's next epoch. */
  ghost predicate InWindow(g: History, t: Triple, j: nat, m: Sent)
    requires Sound(g) && j < |g.secrets|
  {
    if m.epoch == j + 1 then m.header.number < MAX_SKIP && !RestTooLong(g, t, j)
    else m.epoch + 1 == j && ReceivedCount(t.dh) <= m.header.number < ReceivedCount(t.dh) + MAX_SKIP
  }

  /** No number is stepped over. */
  ghost predicate InSequence(g: History, t: Triple, j: nat, m: Sent)
    requires Sound(g) && j < |g.secrets|
  {
    if m.epoch == j + 1 then m.header.number == 0 && NothingLeft(g, t, j) else m.header.number == ReceivedCount(t.dh)
  }

  /** A message in the window moves the chain behind it, and stores nothing if it is the next one. */
  lemma DecryptInWindow(g: History, t: Triple, j: nat, got: set<(nat, nat)>, lost: set<(nat, nat)>, m: Sent,
                        coins: ReceiveCoins)
    requires HistoryOk(g) && SessionOk(g, t, j, got, lost) && FromPeer(g, j, m)
    requires (m.epoch == j + 1 ==> |g.secrets| == j + 2) && FreshEpoch(g, coins.dhSecret)
    requires Separated(Extended(g, coins.dhSecret), m) && InWindow(g, t, j, m)
    ensures Deliverable(g, t, j, m)
    ensures var t' := Decrypt(g.s, t, m.wire, coins).0;
            ReceivedCount(t'.dh) == m.header.number + 1 && (InSequence(g, t, j, m) ==> t'.cache == t.cache)
  {
    hide Decrypt, Extended, CacheOk, Accounted, Derived, SealMessage, Trial, TripleAt, DistinctMessageKeys;
    hide Separated, Outcome;
    hide NothingLeft;
    if m.epoch == j + 1 {
      DecryptNext(g, t, j, got, lost, m, coins);
    } else {
      if SlotOf(m) in t.cache {
        CachedNumber(g, t, j, m);
      }
      DecryptReceiving(g, t, j, got, lost, m, coins);
    }
  }

  lemma RemoteChanges(g: History, t: Triple, j: nat)
    requires Sound(g) && DistinctPublics(g.s, g.secrets) && TripleAt(g, t, j) && j + 1 < |g.secrets|
    ensures t.dh.remote != Some(PublicKey(g.s, g.secrets[j + 1]))
  {
    hide RingAt;
    if 0 < j {
      assert PublicKey(g.s, g.secrets[j - 1]) != PublicKey(g.s, g.secrets[j + 1]);
    }
  }

  /** The header key of the epoch being received is always held. */
  lemma ReceivedEpochHeld(j: nat)
    requires 1 < j
    ensures j - 1 in Trial(j)
  {
    HeldEpochs(j, j - 1);
  }
}
