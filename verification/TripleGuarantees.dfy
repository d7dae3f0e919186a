/** What a triple ratchet session promises over every run. */
module TripleGuarantees {
  import opened Wrappers
  import opened Bytes
  import opened Primitives
  import opened SymmetricRatchet
  import opened DhRatchet
  import opened MessageFormat
  import opened Schedule
  import opened TripleRatchet
  import opened HeaderRing
  import opened TripleParty
  import opened TripleDelivery
  import opened TripleProtocol

  /**
   * Delivery. In every reachable state, for every message the peer ever sent, in whatever order,
   * with whatever lost or repeated before: `decrypt` returns exactly the plaintext given to
   * `encrypt` if the message is deliverable, and an error if it is not. A message decrypted or lost
   * before is never delivered.
   */
  lemma Delivery(s: Suite, w: World, to: Side, index: nat, coins: ReceiveCoins)
    requires Laws(s) && Reachable(s, w)
    requires Allowed(w, Deliver(to, index, coins))
    ensures Inv(w) && FromPeer(w.g, w.Of(to).epoch, w.Of(Peer(to)).outbox[index])
    ensures var p, m := w.Of(to), w.Of(Peer(to)).outbox[index];
            var r := Decrypt(s, p.t, m.wire, coins).1;
            && (r.Ok? <==> Deliverable(w.g, p.t, p.epoch, m))
            && (r.Ok? ==> r.value == m.plaintext)
            && ((m.epoch, m.header.number) in p.got + p.lost ==> r.Err?)
  {
    hide Inv, Decrypt, Deliverable, FreshEpoch, AllSeparated, Separated, Extended, Genuine, FromPeer;
    ReachableInv(s, w);
    var p, m := w.Of(to), w.Of(Peer(to)).outbox[index];
    DeliveredFromPeer(w, to, m);
    InvParts(w, to);
    DeliveredSeparated(w, to, index, coins);
    PartyDelivery(w.g, p, m, coins);
  }

  lemma DeliveredSeparated(w: World, to: Side, index: nat, coins: ReceiveCoins)
    requires Inv(w) && Allowed(w, Deliver(to, index, coins))
    ensures Separated(Extended(w.g, coins.dhSecret), w.Of(Peer(to)).outbox[index])
  {
    hide Separated, Extended, FreshEpoch, PartyOk, HistoryOk;
  }

  lemma PartyDelivery(g: History, p: Party, m: Sent, coins: ReceiveCoins)
    requires HistoryOk(g) && PartyOk(g, p) && FromPeer(g, p.epoch, m) && FreshEpoch(g, coins.dhSecret)
    requires (m.epoch == p.epoch + 1 ==> |g.secrets| == p.epoch + 2) && Separated(Extended(g, coins.dhSecret), m)
    ensures p.epoch < |g.secrets|
    ensures var r := Decrypt(g.s, p.t, m.wire, coins).1;
            && (r.Ok? <==> Deliverable(g, p.t, p.epoch, m))
            && (r.Ok? ==> r.value == m.plaintext)
            && ((m.epoch, m.header.number) in p.got + p.lost ==> r.Err?)
  {
    hide Decrypt, TripleAt, CacheOk, Accounted, OutboxOk, Extended, DistinctMessageKeys, DistinctPublics;
    hide Derived, Deliverable;
    hide Separated, FreshEpoch, SealMessage, LostAfter, HeaderOk;
    DecryptOutcome(g, p.t, p.epoch, p.got, p.lost, m, coins);
    if (m.epoch, m.header.number) in p.got + p.lost {
      SpentUndeliverable(g, p, m);
    }
  }

  /** The message is neither decrypted nor lost, and its key was not evicted or purged. */
  predicate Outstanding(p: Party, m: Sent) {
    (m.epoch, m.header.number) !in p.got + p.lost && SlotOf(m) !in p.t.dropped
  }

  /** The limits the session sets itself, in terms of the message's epoch and number. */
  ghost predicate WithinLimits(g: History, p: Party, m: Sent)
    requires Sound(g) && p.epoch < |g.secrets|
  {
    if m.epoch == p.epoch + 1 then !RestTooLong(g, p.t, p.epoch) && m.header.number < MAX_SKIP
    else if m.epoch + 1 == p.epoch then m.header.number < ReceivedCount(p.t.dh) + MAX_SKIP
    else HeardAt(p.epoch, m.epoch) + 1 >= p.epoch / 2 || HeardAt(p.epoch, m.epoch) < MAX_RETAINED_HEADER_KEYS
  }

  /**
   * Nothing outstanding is missing. However late, a message that was neither decrypted nor lost nor
   * dropped from the cache is not misread, and it is deliverable exactly if it is within the limits:
   * at most MAX_SKIP ahead, and of an epoch whose header key is among those kept.
   */
  lemma NothingMissing(s: Suite, w: World, to: Side, m: Sent)
    requires Laws(s) && Reachable(s, w) && m in w.Of(Peer(to)).outbox && Outstanding(w.Of(to), m)
    ensures Inv(w) && FromPeer(w.g, w.Of(to).epoch, m) && w.Of(to).epoch < |w.g.secrets|
    ensures !Misread(s, w.Of(to).t, m)
    ensures Deliverable(w.g, w.Of(to).t, w.Of(to).epoch, m) <==> WithinLimits(w.g, w.Of(to), m)
  {
    hide SessionOk, OutboxOk, DistinctMessageKeys, Derived, Genuine;
    ReachableInv(s, w);
    DeliveredFromPeer(w, to, m);
    SessionAt(w.g, w.Of(to));
    OutstandingDeliverable(w.g, w.Of(to), m);
  }

  lemma OutstandingDeliverable(g: History, p: Party, m: Sent)
    requires HistoryOk(g) && PartyOk(g, p) && FromPeer(g, p.epoch, m) && Outstanding(p, m)
    ensures !Misread(g.s, p.t, m) && p.epoch < |g.secrets|
    ensures Deliverable(g, p.t, p.epoch, m) <==> WithinLimits(g, p, m)
  {
    hide TryHeader, OutboxOk, Derived, SealMessage, Trial, CacheOk, Laws, TripleAt, DistinctMessageKeys, Separated;
    var e, n := m.epoch, m.header.number;
    if SlotOf(m) in p.t.cache {
      CachedNumber(g, p.t, p.epoch, m);
    }
    if Misread(g.s, p.t, m) {
      MisreadEpoch(g, p.t, p.epoch, m);
    }
    if e < p.epoch {
      assert PeerEpoch(p.epoch, e);
      HeldEpochs(p.epoch, e);
      assert n < Reached(g, p.t, p.epoch, e) ==> Holds(g, p.t, e, n);
    }
  }

  /** Up to epoch 23 every header key heard is still held, so only the skip window, eviction and loss limit lateness. */
  lemma EarlyEpochsHeld(j: nat, e: nat)
    requires PeerEpoch(j, e) && j <= 23
    ensures e in Trial(j)
  {
    HeldEpochs(j, e);
  }

  /**
   * A header key that is neither among the last two nor among the first ten ever heard is gone for
   * good: in every reachable state no message of its epoch can be decrypted, outstanding or not.
   */
  lemma UnheldEpochRefused(s: Suite, w: World, to: Side, index: nat, coins: ReceiveCoins)
    requires Laws(s) && Reachable(s, w) && Allowed(w, Deliver(to, index, coins))
    requires var j, e := w.Of(to).epoch, w.Of(Peer(to)).outbox[index].epoch;
             PeerEpoch(j, e) && HeardAt(j, e) + 1 < j / 2 && HeardAt(j, e) >= MAX_RETAINED_HEADER_KEYS
    ensures Decrypt(s, w.Of(to).t, w.Of(Peer(to)).outbox[index].wire, coins).1.Err?
  {
    hide Decrypt, Inv, FreshEpoch, AllSeparated, Extended, Genuine, Holds, Trial;
    var p, m := w.Of(to), w.Of(Peer(to)).outbox[index];
    Delivery(s, w, to, index, coins);
    HeldEpochs(p.epoch, m.epoch);
    SessionAtInv(w, to);
    assert m.epoch + 1 != p.epoch;
  }

  /** And so for good: after any further run it is still refused. */
  lemma UnheldForGood(s: Suite, w: World, to: Side, index: nat, more: seq<Event>, coins: ReceiveCoins)
    requires Laws(s) && Reachable(s, w) && AllowedRun(w, more) && Allowed(Run(w, more), Deliver(to, index, coins))
    requires index < |w.Of(Peer(to)).outbox|
    requires var j, e := w.Of(to).epoch, w.Of(Peer(to)).outbox[index].epoch;
             PeerEpoch(j, e) && HeardAt(j, e) + 1 < j / 2 && HeardAt(j, e) >= MAX_RETAINED_HEADER_KEYS
    ensures Run(w, more).Of(Peer(to)).outbox[index] == w.Of(Peer(to)).outbox[index]
    ensures Decrypt(s, Run(w, more).Of(to).t, w.Of(Peer(to)).outbox[index].wire, coins).1.Err?
  {
    hide Decrypt, Inv, Allowed, AllowedRun, Run, Reachable;
    ReachableInv(s, w);
    ReachableOn(s, w, more);
    ReachableInv(s, Run(w, more));
    RunRemembers(w, more, to);
    RunRemembers(w, more, Peer(to));
    Parity(w, to);
    Parity(Run(w, more), to);
    UnheldEpochRefused(s, Run(w, more), to, index, coins);
  }

  lemma Parity(w: World, side: Side)
    requires Inv(w)
    ensures w.Of(side).epoch % 2 == if side == Alice then 1 else 0
  {
    hide PartyOk, HistoryOk;
  }

  lemma SessionAtInv(w: World, to: Side)
    requires Inv(w)
    ensures Sound(w.g) && w.Of(to).epoch < |w.g.secrets|
  {
  }

  /** From epoch 24 on there is such an epoch: 20 for Alice, 19 for Bob. */
  lemma LaterEpochsUnheld(j: nat)
    requires 24 <= j
    ensures var e := if j % 2 == 1 then 20 else 19;
            PeerEpoch(j, e) && HeardAt(j, e) + 1 < j / 2 && HeardAt(j, e) >= MAX_RETAINED_HEADER_KEYS
  {
  }

  lemma {:induction false} TagsBounded(outbox: seq<Sent>)
    ensures |Tags(outbox)| <= |outbox|
  {
    if outbox != [] {
      var n := |outbox| - 1;
      var init, last := outbox[..n], outbox[n];
      TagsBounded(init);
      assert outbox == init + [last];
      assert Tags(outbox) == Tags(init) + {(last.epoch, last.header.number)};
    }
  }

  lemma SubsetBounded<T>(a: set<T>, b: set<T>)
    requires a <= b
    ensures |a| <= |b|
  {
    assert |b - a| == |b| - |a|;
  }

  /**
   * Conservation: the counters count messages, no side decrypts more than the other sent, and
   * nothing both lost and decrypted.
   */
  lemma Conservation(s: Suite, w: World, to: Side)
    requires Laws(s) && Reachable(s, w)
    ensures var p, q := w.Of(to), w.Of(Peer(to));
            && p.t.totalReceived == |p.got| && q.t.totalSent == |q.outbox|
            && p.got <= Tags(q.outbox) && p.t.totalReceived <= q.t.totalSent && p.got !! p.lost
  {
    hide TripleAt, CacheOk, Accounted, HistoryOk, Genuine, Tags;
    ReachableInv(s, w);
    TagsBounded(w.Of(Peer(to)).outbox);
    SubsetBounded(w.Of(to).got, Tags(w.Of(Peer(to)).outbox));
  }

  // ---------------------------------------------------------------
  // The cache is bounded
  // ---------------------------------------------------------------

  /** The slot a non-empty hash map yields first is one it holds. */
  ghost predicate PicksHeld(victim: Cache -> Slot) {
    forall cache :: cache != map[] ==> victim(cache) in cache
  }

  lemma StoreBounded(t: Triple, publicKey: Bytes, number: nat, key: Bytes, victim: Cache -> Slot)
    requires PicksHeld(victim) && |t.cache| <= MAX_SKIPPED_KEYS
    ensures |Store(t, publicKey, number, key, victim).cache| <= MAX_SKIPPED_KEYS
  {
    var slot := (publicKey, number);
    var kept := if |t.cache| >= MAX_SKIPPED_KEYS then t.cache - {victim(t.cache)} else t.cache;
    if |t.cache| >= MAX_SKIPPED_KEYS {
      assert kept.Keys == t.cache.Keys - {victim(t.cache)};
      assert |kept| == |kept.Keys| && |t.cache| == |t.cache.Keys|;
    }
    assert kept[slot := Skipped(key, t.dh.steps)].Keys == kept.Keys + {slot};
    assert |kept[slot := Skipped(key, t.dh.steps)]| == |kept.Keys + {slot}| && |kept| == |kept.Keys|;
  }

  lemma {:induction false} StoreAllBounded(t: Triple, publicKey: Bytes, keys: Keys, victim: Cache -> Slot)
    requires PicksHeld(victim) && |t.cache| <= MAX_SKIPPED_KEYS
    ensures |StoreAll(t, publicKey, keys, victim).cache| <= MAX_SKIPPED_KEYS
    decreases |keys|
  {
    hide Store;
    if keys != [] {
      StoreBounded(t, publicKey, keys[0].0, keys[0].1, victim);
      StoreAllBounded(Store(t, publicKey, keys[0].0, keys[0].1, victim), publicKey, keys[1..], victim);
    }
  }

  lemma OpenBodyBounded(s: Suite, t: Triple, h: Header, m: Encrypted, victim: Cache -> Slot)
    requires PicksHeld(victim) && |t.cache| <= MAX_SKIPPED_KEYS
    ensures |OpenBody(s, t, h, m, victim).0.cache| <= MAX_SKIPPED_KEYS
  {
    hide StoreAll, ReceiveKey;
    var (dh, r) := ReceiveKey(s, t.dh, h.number);
    if r.Ok? {
      StoreAllBounded(t.(dh := dh), h.dhPublic, r.value.skipped, victim);
    }
  }

  lemma EnterEpochBounded(s: Suite, t: Triple, h: Header, coins: ReceiveCoins)
    requires DeriveLaw(s) && PicksHeld(coins.victim) && |t.cache| <= MAX_SKIPPED_KEYS
    ensures |EnterEpoch(s, t, h, coins).0.cache| <= MAX_SKIPPED_KEYS
  {
    hide StoreAll, SkipRemaining, RatchetStep;
    if t.dh.remote.Some? {
      var (dh, r) := SkipRemaining(s, t.dh, h.previousLength);
      if r.Ok? {
        StoreAllBounded(t.(dh := dh), t.dh.remote.value, r.value, coins.victim);
      }
    }
  }

  lemma DecryptBounded(s: Suite, t: Triple, m: Encrypted, coins: ReceiveCoins)
    requires DeriveLaw(s) && PicksHeld(coins.victim) && |t.cache| <= MAX_SKIPPED_KEYS
    ensures |Decrypt(s, t, m, coins).0.cache| <= MAX_SKIPPED_KEYS
  {
    hide OpenBody, EnterEpoch, Detect;
    var (t1, cached) := TrySkipped(s, t, m);
    assert |t1.cache| <= |t.cache| by {
      SubsetBounded(t1.cache.Keys, t.cache.Keys);
      assert |t1.cache| == |t1.cache.Keys| && |t.cache| == |t.cache.Keys|;
    }
    if cached == Ok(None) && Detect(s, t1, m).Ok? {
      var (h, changed) := Detect(s, t1, m).value;
      if changed {
        EnterEpochBounded(s, t1, h, coins);
      }
      var t2 := if changed then EnterEpoch(s, t1, h, coins).0 else t1;
      OpenBodyBounded(s, ReceivePq(s, t2, h, coins), h, m, coins.victim);
    }
  }

  /** Every full map gives up a slot it holds. */
  ghost predicate VictimsHeld(evs: seq<Event>) {
    forall i :: 0 <= i < |evs| && evs[i].Deliver? ==> PicksHeld(evs[i].coins.victim)
  }

  predicate CachesBounded(w: World) {
    |w.alice.t.cache| <= MAX_SKIPPED_KEYS && |w.bob.t.cache| <= MAX_SKIPPED_KEYS
  }

  lemma PurgeBounded(t: Triple, maxAge: nat)
    ensures |Purge(t, maxAge).cache| <= |t.cache|
  {
    var cache := Purge(t, maxAge).cache;
    SubsetBounded(cache.Keys, t.cache.Keys);
    assert |cache| == |cache.Keys| && |t.cache| == |t.cache.Keys|;
  }

  lemma EncryptKeepsCache(s: Suite, t: Triple, plaintext: Bytes, coins: SendCoins)
    ensures Encrypt(s, t, plaintext, coins).0.cache == t.cache
  {
    hide SealMessage;
  }

  lemma NextBounded(w: World, ev: Event)
    requires DhLaw(w.g.s) && DeriveLaw(w.g.s) && 0 < |w.g.secrets| == |w.g.roots|
    requires CachesBounded(w) && (ev.Deliver? ==> PicksHeld(ev.coins.victim))
    ensures CachesBounded(Next(w, ev))
  {
    hide Encrypt, Decrypt, Extended, Counted, NewMessage, Purge, PicksHeld, LostAfter;
    match ev
    case Send(from, plaintext, coins) => EncryptKeepsCache(w.g.s, w.Of(from).t, plaintext, coins);
    case Deliver(to, index, coins) =>
      if index < |w.Of(Peer(to)).outbox| {
        DecryptBounded(w.g.s, w.Of(to).t, w.Of(Peer(to)).outbox[index].wire, coins);
      }
    case PurgeOld(at, maxAge) => PurgeBounded(w.Of(at).t, maxAge);
    case SetInterval(at, interval) =>
  }

  lemma {:induction false} RunBounded(w: World, evs: seq<Event>)
    requires DhLaw(w.g.s) && DeriveLaw(w.g.s) && 0 < |w.g.secrets| == |w.g.roots|
    requires CachesBounded(w) && VictimsHeld(evs)
    ensures CachesBounded(Run(w, evs))
    decreases |evs|
  {
    hide Next, CachesBounded, PicksHeld;
    if evs != [] {
      NextBounded(w, evs[0]);
      RunBounded(Next(w, evs[0]), evs[1..]);
    }
  }

  /** However many keys messages make the receivers skip, over every run at most MAX_SKIPPED_KEYS are ever held. */
  lemma CacheBounded(s: Suite, shared: Bytes, k: Setup, evs: seq<Event>, w: World)
    requires Laws(s) && ReachableBy(s, shared, k, evs, w) && VictimsHeld(evs)
    ensures |w.alice.t.cache| <= MAX_SKIPPED_KEYS && |w.bob.t.cache| <= MAX_SKIPPED_KEYS
  {
    hide AllowedRun, Run, InitialHistory, VictimsHeld;
    RunBounded(Start(s, shared, k).value, evs);
  }

  /**
   * Purging keeps a key stored exactly `maxAge` steps ago, so at step 10 with age 3 a key of step 7
   * survives; the comment on `purge_skipped_keys_older_than` says it does not.
   */
  lemma PurgeBoundary(t: Triple, slot: Slot, maxAge: nat)
    requires slot in t.cache && t.cache[slot].step <= t.dh.steps
    ensures slot in Purge(t, maxAge).cache <==> t.dh.steps <= t.cache[slot].step + maxAge
    ensures slot in Purge(t, maxAge).cache || slot in Purge(t, maxAge).dropped
  {
  }

  /**
   * Ages are counted in epochs. In every reachable state before 2^32 steps, the key held for a message
   * survives purging exactly if the receiver has taken at most `maxAge` steps since it received the
   * message's epoch.
   */
  lemma PurgeByEpoch(s: Suite, w: World, to: Side, m: Sent, maxAge: nat)
    requires Laws(s) && Reachable(s, w) && m in w.Of(Peer(to)).outbox && w.Of(to).epoch < U32
    requires Inv(w) && m.epoch < |w.g.secrets| && Holds(w.g, w.Of(to).t, m.epoch, m.header.number)
    ensures SlotOf(m) in Purge(w.Of(to).t, maxAge).cache <==> w.Of(to).epoch / 2 <= (m.epoch + 1) / 2 + maxAge
  {
    hide Inv, Genuine, OutboxOk, Purge, Derived, Accounted, RingAt, CacheOk;
    ReachableInv(s, w);
    InvParts(w, to);
    var g, p := w.g, w.Of(to);
    SessionParts(g, p);
    DeliveredFromPeer(w, to, m);
    HeldStep(g, p.t, p.epoch, m);
    PurgeBoundary(p.t, SlotOf(m), maxAge);
  }

  /** The step recorded with a key that is the right one. */
  lemma HeldStep(g: History, t: Triple, j: nat, m: Sent)
    requires HistoryOk(g) && TripleAt(g, t, j) && CacheOk(g, t, j) && FromPeer(g, j, m)
    requires Holds(g, t, m.epoch, m.header.number)
    ensures SlotOf(m) in t.cache && t.cache[SlotOf(m)].step == Wrap32((m.epoch + 1) / 2)
    ensures PeerEpoch(j, m.epoch) && t.dh.steps == Wrap32(j / 2)
  {
    hide Separated, SealMessage, RingAt, Derived, DhLaw, DeriveLaw, AeadLaw, KemLaw, MessageKeyOf;
    CachedNumber(g, t, j, m);
    var e, source :| Cached(g, t, j, SlotOf(m), e, source);
    assert source == m.epoch;
  }

  // ---------------------------------------------------------------
  // What a misread message does
  // ---------------------------------------------------------------

  /**
   * Exactly when a message is misread, in every reachable state: it is of the peer's epoch before
   * the one being received, its key is not cached, and its number lies in the window of the epoch
   * being received. It was then decrypted, lost or dropped before.
   */
  lemma MisreadExactly(s: Suite, w: World, to: Side, m: Sent)
    requires Laws(s) && Reachable(s, w) && m in w.Of(Peer(to)).outbox
    ensures var p := w.Of(to);
            Misread(s, p.t, m) <==>
              && UnderPrevious(p.epoch, m.epoch) && m.epoch + 1 < p.epoch && SlotOf(m) !in p.t.cache
              && ReceivedCount(p.t.dh) <= m.header.number < ReceivedCount(p.t.dh) + MAX_SKIP
    ensures Misread(s, w.Of(to).t, m) ==> !Outstanding(w.Of(to), m)
  {
    hide OutboxOk, Derived, SealMessage, TripleAt, CacheOk, DistinctMessageKeys, DistinctPublics, DhLaw;
    hide KemLaw, DeriveLaw, AeadLaw;
    hide TryHeader, Separated, Accounted;
    ReachableInv(s, w);
    var g, p := w.g, w.Of(to);
    DeliveredFromPeer(w, to, m);
    if Misread(s, p.t, m) {
      MisreadEpoch(g, p.t, p.epoch, m);
      if Outstanding(p, m) {
        OutstandingDeliverable(g, p, m);
      }
    }
    if UnderPrevious(p.epoch, m.epoch) && m.epoch + 1 < p.epoch {
      LateMisread(g, p.t, p.epoch, m);
    }
  }

  /** A party after a misread message: only the chain, the cache, the PQ ratchet and the losses have changed. */
  lemma MisreadParty(g: History, p: Party, m: Sent, coins: ReceiveCoins)
    requires HistoryOk(g) && PartyOk(g, p) && FromPeer(g, p.epoch, m) && Misread(g.s, p.t, m)
    ensures 2 <= p.epoch < |g.secrets| && UnderPrevious(p.epoch, m.epoch) && m.epoch + 1 < p.epoch
    ensures Decrypt(g.s, p.t, m.wire, coins).1 == Err(Aead)
    ensures var p' := ReceiveBy(g.s, p, m, coins);
            && p'.epoch == p.epoch && p'.got == p.got && p'.outbox == p.outbox
            && p'.lost == p.lost + LostTo(p.t, p.epoch, p.got, m)
            && ReceivedCount(p'.t.dh) == m.header.number + 1 && p.t.dropped <= p'.t.dropped
  {
    hide OutboxOk, Derived, SealMessage, Accounted, CacheOk, Decrypt, DistinctMessageKeys, Separated, Damage;
    hide Burnt, ReceivePq;
    hide RingAt, TripleAt, TryHeader, DhLaw, AeadLaw, KemLaw, HeaderOk;
    MisreadEpoch(g, p.t, p.epoch, m);
    DecryptMisread(g, p.t, p.epoch, m, coins);
    PqAside(g, p.t, p.epoch, p.got, p.lost, m.header, coins);
    BurntOk(g, ReceivePq(g.s, p.t, m.header, coins), p.epoch, p.got + p.lost, m.epoch, m.header.number, coins.victim);
    MisreadOutcome(g, p.t, p.epoch, p.got, p.lost, m, coins);
  }

  /**
   * The damage, exactly. In every reachable state a misread message with number n fails to decrypt,
   * but every message of the epoch being received from the number reached up to n, each deliverable
   * before, can never be delivered any more; nor can any message of its own epoch with such a number
   * below n, the outstanding ones of which were deliverable before, because their cached keys are
   * overwritten. Every other deliverable message stays so, unless its key was evicted.
   */
  lemma MisreadDamage(s: Suite, w: World, to: Side, index: nat, coins: ReceiveCoins, m': Sent)
    requires Laws(s) && Reachable(s, w) && Allowed(w, Deliver(to, index, coins))
    requires Misread(s, w.Of(to).t, w.Of(Peer(to)).outbox[index]) && m' in w.Of(Peer(to)).outbox
    ensures Inv(w) && FromPeer(w.g, w.Of(to).epoch, m') && 2 <= w.Of(to).epoch < |w.g.secrets|
    ensures var p, m := w.Of(to), w.Of(Peer(to)).outbox[index];
            var p' := Next(w, Deliver(to, index, coins)).Of(to);
            var before, after := Deliverable(w.g, p.t, p.epoch, m'), Deliverable(w.g, p'.t, p.epoch, m');
            var hit := (m'.epoch, m'.header.number) in Damage(p.epoch, m.epoch, ReceivedCount(p.t.dh), m.header.number);
            && Decrypt(s, p.t, m.wire, coins).1 == Err(Aead)
            && (hit ==> !after)
            && (hit && (m'.epoch + 1 == p.epoch || Outstanding(p, m')) ==> before)
            && (!hit && before ==> after || SlotOf(m') in p'.t.dropped)
  {
    hide Inv, Decrypt, Misread, Deliverable, Damage, LostTo, ReceiveBy, FreshEpoch, AllSeparated, Extended;
    hide Genuine, LostAfter;
    ReachableInv(s, w);
    var g, p, m := w.g, w.Of(to), w.Of(Peer(to)).outbox[index];
    DeliveredFromPeer(w, to, m');
    DeliveredFromPeer(w, to, m);
    InvParts(w, to);
    MisreadParty(g, p, m, coins);
    var w' := Next(w, Deliver(to, index, coins));
    NextInv(w, Deliver(to, index, coins));
    InvParts(w', to);
    if (m'.epoch, m'.header.number) in Damage(p.epoch, m.epoch, ReceivedCount(p.t.dh), m.header.number)
      && (m'.epoch + 1 == p.epoch || Outstanding(p, m')) {
      DamageBefore(g, p, m, m');
    }
    MisreadMovesOn(p.t, m);
    DamageAfter(g, p, w'.Of(to), m, m');
  }

  lemma InvParts(w: World, to: Side)
    requires Inv(w)
    ensures HistoryOk(w.g) && PartyOk(w.g, w.Of(to)) && w.Of(to).epoch < |w.g.secrets|
  {
  }

  lemma MisreadMovesOn(t: Triple, m: Sent)
    requires exists s :: Misread(s, t, m)
    ensures ReceivedCount(t.dh) <= m.header.number
  {
  }

  /** The messages hit were deliverable before. */
  lemma DamageBefore(g: History, p: Party, m: Sent, m': Sent)
    requires HistoryOk(g) && PartyOk(g, p) && FromPeer(g, p.epoch, m') && Misread(g.s, p.t, m)
    requires 2 <= p.epoch < |g.secrets|
    requires (m'.epoch, m'.header.number) in Damage(p.epoch, m.epoch, ReceivedCount(p.t.dh), m.header.number)
          && (m'.epoch + 1 == p.epoch || Outstanding(p, m')) && UnderPrevious(p.epoch, m.epoch) && m.epoch + 1 < p.epoch
    ensures Deliverable(g, p.t, p.epoch, m')
  {
    hide OutboxOk, Derived, SealMessage, DistinctMessageKeys, Separated, TripleAt, Accounted, TryHeader;
    hide Trial, Damage, Holds, Laws;
    DamageMembers(p.epoch, m.epoch, ReceivedCount(p.t.dh), m.header.number, (m'.epoch, m'.header.number));
    if m'.epoch + 1 == p.epoch {
      if SlotOf(m') in p.t.cache {
        CachedNumber(g, p.t, p.epoch, m');
      }
    } else {
      OutstandingDeliverable(g, p, m');
      PreviousWithinLimits(p.epoch, m'.epoch);
    }
  }

  lemma PreviousWithinLimits(j: nat, e: nat)
    requires UnderPrevious(j, e) && 0 < e && e + 1 < j && e % 2 != j % 2
    ensures HeardAt(j, e) + 1 >= j / 2
  {
    HeardPeerEpochs(j, j / 2 - 1);
  }

  /** A spent message is not deliverable. */
  lemma SpentUndeliverable(g: History, p: Party, m: Sent)
    requires HistoryOk(g) && PartyOk(g, p) && FromPeer(g, p.epoch, m) && (m.epoch, m.header.number) in p.got + p.lost
    ensures p.epoch < |g.secrets| && !Deliverable(g, p.t, p.epoch, m)
  {
    hide OutboxOk, Derived, SealMessage, DistinctMessageKeys, Separated, TripleAt, CacheOk, TryHeader, Trial, Laws;
  }

  /** Nor will it ever be: what is decrypted or lost stays undeliverable over any further run. */
  lemma SpentForGood(s: Suite, w: World, to: Side, m: Sent, more: seq<Event>)
    requires Laws(s) && Reachable(s, w) && AllowedRun(w, more)
    requires m in w.Of(Peer(to)).outbox && (m.epoch, m.header.number) in w.Of(to).got + w.Of(to).lost
    ensures var w' := Run(w, more);
            && Inv(w') && FromPeer(w'.g, w'.Of(to).epoch, m) && w'.Of(to).epoch < |w'.g.secrets|
            && !Deliverable(w'.g, w'.Of(to).t, w'.Of(to).epoch, m)
  {
    hide Inv, AllowedRun, Run, Reachable, Deliverable, Genuine, HistoryOk, PartyOk;
    var w' := Run(w, more);
    ReachableOn(s, w, more);
    ReachableInv(s, w');
    RunRemembers(w, more, to);
    RunRemembers(w, more, Peer(to));
    DeliveredFromPeer(w', to, m);
    InvParts(w', to);
    SpentUndeliverable(w'.g, w'.Of(to), m);
  }

  /** The messages a misread one hits can never be delivered any more, whatever happens after it. */
  lemma DamageForGood(s: Suite, w: World, to: Side, index: nat, coins: ReceiveCoins, m': Sent, more: seq<Event>)
    requires Laws(s) && Reachable(s, w) && Allowed(w, Deliver(to, index, coins))
    requires Misread(s, w.Of(to).t, w.Of(Peer(to)).outbox[index]) && m' in w.Of(Peer(to)).outbox && 0 < w.Of(to).epoch
    requires var p, m := w.Of(to), w.Of(Peer(to)).outbox[index];
             (m'.epoch, m'.header.number) in Damage(p.epoch, m.epoch, ReceivedCount(p.t.dh), m.header.number)
    requires AllowedRun(Next(w, Deliver(to, index, coins)), more)
    ensures var w' := Run(Next(w, Deliver(to, index, coins)), more);
            && Inv(w') && FromPeer(w'.g, w'.Of(to).epoch, m') && w'.Of(to).epoch < |w'.g.secrets|
            && !Deliverable(w'.g, w'.Of(to).t, w'.Of(to).epoch, m')
  {
    hide Inv, Decrypt, Misread, Deliverable, Damage, ReceiveBy, FreshEpoch, AllSeparated, Extended, Genuine;
    hide HistoryOk, PartyOk, Reachable, AllowedRun, Run;
    var ev, m := Deliver(to, index, coins), w.Of(Peer(to)).outbox[index];
    ReachableInv(s, w);
    DeliveredFromPeer(w, to, m);
    InvParts(w, to);
    MisreadParty(w.g, w.Of(to), m, coins);
    ReachableNext(s, w, ev);
    SpentForGood(s, Next(w, ev), to, m', more);
  }

  lemma ReachableNext(s: Suite, w: World, ev: Event)
    requires Laws(s) && Reachable(s, w) && Allowed(w, ev)
    ensures Reachable(s, Next(w, ev))
  {
    hide Allowed, Next, Reachable;
    assert [ev][1..] == [];
    assert AllowedRun(Next(w, ev), []);
    assert Run(Next(w, ev), []) == Next(w, ev);
    assert AllowedRun(w, [ev]) && Run(w, [ev]) == Run(Next(w, ev), []);
    ReachableOn(s, w, [ev]);
  }

  lemma DamageAfter(g: History, p: Party, p': Party, m: Sent, m': Sent)
    requires HistoryOk(g) && PartyOk(g, p) && PartyOk(g, p') && FromPeer(g, p.epoch, m') && 2 <= p.epoch < |g.secrets|
    requires p'.epoch == p.epoch && p'.got == p.got && p'.lost == p.lost + LostTo(p.t, p.epoch, p.got, m)
    requires ReceivedCount(p.t.dh) <= ReceivedCount(p'.t.dh) && p.t.dropped <= p'.t.dropped
    ensures var hit := (m'.epoch, m'.header.number) in Damage(p.epoch, m.epoch, ReceivedCount(p.t.dh), m.header.number);
            && (hit ==> !Deliverable(g, p'.t, p.epoch, m'))
            && (!hit && Deliverable(g, p.t, p.epoch, m') ==>
                  Deliverable(g, p'.t, p.epoch, m') || SlotOf(m') in p'.t.dropped)
  {
    hide OutboxOk, Derived, SealMessage, DistinctMessageKeys, Separated, TripleAt, CacheOk, Accounted;
    hide TryHeader, Trial, Laws;
    hide Deliverable, Damage, HeardAt;
    var x := (m'.epoch, m'.header.number);
    if x in Damage(p.epoch, m.epoch, ReceivedCount(p.t.dh), m.header.number) {
      SpentUndeliverable(g, p', m');
    } else if Deliverable(g, p.t, p.epoch, m') && SlotOf(m') !in p'.t.dropped {
      if x in p.got + p.lost {
        SpentUndeliverable(g, p, m');
      }
      OutstandingDeliverable(g, p, m');
      OutstandingDeliverable(g, p', m');
    }
  }

  // ---------------------------------------------------------------
  // What a refused message does
  // ---------------------------------------------------------------

  /** The header carries a PQ step. */
  predicate CarriesStep(h: Header) {
    h.kemCiphertext.Some? && h.kemPublic.Some?
  }

  lemma StepChangesPq(s: Suite, t: Triple, h: Header, coins: ReceiveCoins)
    ensures ReceivePq(s, t, h, coins) == t.(pq := ReceivePq(s, t, h, coins).pq)
    ensures ReceivePq(s, t, h, coins).pq.steps == if CarriesStep(h) then Wrap32(t.pq.steps + 1) else t.pq.steps
    ensures ReceivePq(s, t, h, coins) != t <==> CarriesStep(h)
  {
  }

  /** The last part of `decrypt` refuses a number outside the window without touching anything. */
  lemma RefusedBody(g: History, t: Triple, j: nat, m: Sent, coins: ReceiveCoins)
    requires HistoryOk(g) && TripleAt(g, t, j) && FromPeer(g, j, m) && m.epoch + 1 == j && SlotOf(m) !in t.cache
    requires m.header.number < ReceivedCount(t.dh) || ReceivedCount(t.dh) + MAX_SKIP <= m.header.number
    ensures Decrypt(g.s, t, m.wire, coins) == (ReceivePq(g.s, t, m.header, coins), Err(Ratchet))
  {
    hide Derived, SealMessage, Decrypt, OpenBody, Detect, TrySkipped, DistinctMessageKeys, Separated, RingAt, Segment;
    TripleAtRing(g, t, j);
    SkippedMiss(g, t, j, m);
    DetectEpoch(g, t, j, m);
    DecryptSameEpoch(g.s, t, m.wire, coins, m.header);
    var t1 := ReceivePq(g.s, t, m.header, coins);
    ReceiveKeyMeaning(g.s, t1.dh, g.seeds[j - 1], ReceivedCount(t1.dh), m.header.number);
    OpenBodyRefused(g.s, t1, m.header, m.wire, coins.victim);
  }

  /** The header still opens: the message is of the epoch received or the one before. */
  predicate StillOpens(j: nat, e: nat) {
    e + 1 == j || UnderPrevious(j, e)
  }

  /** The session changes exactly if the header opens and carries a PQ step, which is then completed once more. */
  ghost predicate OnlyStepsPq(s: Suite, t: Triple, j: nat, m: Sent, coins: ReceiveCoins)
    requires DeriveLaw(s)
  {
    var t' := Decrypt(s, t, m.wire, coins).0;
    && t' == (if StillOpens(j, m.epoch) then ReceivePq(s, t, m.header, coins) else t)
    && (t' != t <==> StillOpens(j, m.epoch) && CarriesStep(m.header))
    && (t' != t ==> t'.pq.steps == Wrap32(t.pq.steps + 1))
  }

  /**
   * What a refused message does, when no key is cached for it and it is of an epoch already known.
   * Unless it is misread, it changes the session exactly if its header still opens and carries a PQ
   * step. That step is then completed once more, so a repeated message puts the receiver's PQ
   * counter one step ahead of its sender's.
   */
  lemma RefusedStepsPq(s: Suite, w: World, to: Side, index: nat, coins: ReceiveCoins)
    requires Laws(s) && Reachable(s, w) && Allowed(w, Deliver(to, index, coins))
    requires var p, m := w.Of(to), w.Of(Peer(to)).outbox[index];
             && SlotOf(m) !in p.t.cache && m.epoch < p.epoch && !Misread(s, p.t, m)
             && Decrypt(s, p.t, m.wire, coins).1.Err?
    ensures OnlyStepsPq(s, w.Of(to).t, w.Of(to).epoch, w.Of(Peer(to)).outbox[index], coins)
  {
    hide Inv, Decrypt, Misread, FromPeer, FreshEpoch, AllSeparated, Separated, Extended, Deliverable;
    hide OnlyStepsPq, HistoryOk, PartyOk;
    ReachableInv(s, w);
    var p, m := w.Of(to), w.Of(Peer(to)).outbox[index];
    DeliveredFromPeer(w, to, m);
    InvParts(w, to);
    DeliveredSeparated(w, to, index, coins);
    PartyDelivery(w.g, p, m, coins);
    PartyRefused(w.g, p, m, coins);
  }

  lemma PartyRefused(g: History, p: Party, m: Sent, coins: ReceiveCoins)
    requires HistoryOk(g) && PartyOk(g, p) && FromPeer(g, p.epoch, m) && p.epoch < |g.secrets|
    requires SlotOf(m) !in p.t.cache && m.epoch < p.epoch && !Misread(g.s, p.t, m) && !Deliverable(g, p.t, p.epoch, m)
    ensures OnlyStepsPq(g.s, p.t, p.epoch, m, coins)
  {
    hide Decrypt, Misread, ReceivePq, Genuine, SessionOk, OutboxOk, Trial, CarriesStep, Derived, DistinctMessageKeys;
    SessionParts(g, p);
    StepChangesPq(g.s, p.t, m.header, coins);
    if m.epoch + 1 == p.epoch {
      RefusedBody(g, p.t, p.epoch, m, coins);
    } else {
      DecryptLate(g, p.t, p.epoch, p.got, p.lost, m, coins);
    }
  }

  lemma SessionParts(g: History, p: Party)
    requires Sound(g) && PartyOk(g, p)
    ensures SessionOk(g, p.t, p.epoch, p.got, p.lost) && TripleAt(g, p.t, p.epoch)
  {
  }
}
