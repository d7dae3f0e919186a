/**
 * Two triple ratchet sessions over a network that loses, duplicates and reorders messages.
 * Randomness and the choice of the delivered message are inputs, so a run is a list of events.
 */
module TripleProtocol {
  import opened Wrappers
  import opened Bytes
  import opened Primitives
  import opened SymmetricRatchet
  import opened DhRatchet
  import opened PqRatchet
  import opened MessageFormat
  import opened Schedule
  import opened TripleRatchet
  import opened HeaderRing
  import opened TripleParty
  import opened TripleDelivery

  /**
   * A session, with as history its epoch, the peer's messages it decrypted, those lost to it by
   * epoch and number, and everything it sent.
   */
  datatype Party = Party(t: Triple, epoch: nat, got: set<(nat, nat)>, lost: set<(nat, nat)>, outbox: seq<Sent>)

  datatype World = World(alice: Party, bob: Party, g: History) {
    function Of(side: Side): (p: Party) {
      if side == Alice then alice else bob
    }

    function With(side: Side, p: Party): (w: World) {
      if side == Alice then this.(alice := p) else this.(bob := p)
    }
  }

  datatype Event =
    | Send(from: Side, plaintext: Bytes, sendCoins: SendCoins)
    | Deliver(to: Side, index: nat, coins: ReceiveCoins) // the index-th message the peer ever sent
    | PurgeOld(at: Side, maxAge: nat)
    | SetInterval(at: Side, interval: nat)

  /** Secrets of the four initial key pairs. */
  datatype Setup = Setup(bobDh: Bytes, bobKem: Bytes, aliceDh: Bytes, aliceKem: Bytes)

  /** Bob's public keys are published; both start from one shared secret. */
  function Start(s: Suite, shared: Bytes, k: Setup): (r: Result<World>)
    requires DhLaw(s) && DeriveLaw(s)
    ensures r.Ok? ==> r.value.g.s == s && 0 < |r.value.g.secrets| == |r.value.g.roots|
  {
    match InitTripleSender(s, shared, PublicKey(s, k.bobDh), KemPublicKey(s, k.bobKem), k.aliceDh, k.aliceKem)
    case Err(e) => Err(e)
    case Ok(alice) =>
      Ok(World(Party(alice, 1, {}, {}, []), Party(InitTripleReceiver(s, shared, k.bobDh, k.bobKem), 0, {}, {}, []),
               InitialHistory(s, shared, k)))
  }

  function InitialHistory(s: Suite, shared: Bytes, k: Setup): (g: History)
    requires DhLaw(s) && DeriveLaw(s)
  {
    var root := SessionRoot(s, shared);
    var out := Derivation(s, root, k.bobDh, k.aliceDh);
    History(s, [k.bobDh, k.aliceDh], [root, out.root], [[], out.chain],
            [InitialHeaderKey(s, shared, 1), InitialHeaderKey(s, shared, 0), InitialHeaderKey(s, shared, 2),
             out.header],
            [0, 0])
  }

  /** The header `encrypt` builds. */
  function SentHeader(s: Suite, t: Triple, coins: SendCoins): (h: Header)
    requires EncryptPq(s, t, coins).1.Ok? && EncryptKey(s, t.dh).1.Ok?
  {
    HeaderFor(EncryptKey(s, t.dh).1.value, t.previousLength, EncryptPq(s, t, coins).1.value)
  }

  /** The message `encrypt` makes. */
  function NewMessage(s: Suite, p: Party, plaintext: Bytes, coins: SendCoins): (m: Sent)
    requires Encrypt(s, p.t, plaintext, coins).1.Ok?
  {
    Sent(p.epoch, SentHeader(s, p.t, coins), plaintext, coins, Encrypt(s, p.t, plaintext, coins).1.value)
  }

  /** `encrypt`, and the message goes to the network. */
  function SendBy(s: Suite, p: Party, plaintext: Bytes, coins: SendCoins): (p': Party) {
    var (t, r) := Encrypt(s, p.t, plaintext, coins);
    if r.Err? then p.(t := t) else p.(t := t, outbox := p.outbox + [NewMessage(s, p, plaintext, coins)])
  }

  /** `decrypt`; the party is two epochs further if its remote ratchet key changed. */
  function ReceiveBy(s: Suite, p: Party, m: Sent, coins: ReceiveCoins): (p': Party)
    requires DeriveLaw(s)
  {
    var (t, r) := Decrypt(s, p.t, m.wire, coins);
    Party(t, if t.dh.remote != p.t.dh.remote then p.epoch + 2 else p.epoch,
          if r.Ok? then p.got + {(m.epoch, m.header.number)} else p.got,
          LostAfter(s, p.t, p.epoch, p.got, p.lost, m), p.outbox)
  }

  function Next(w: World, ev: Event): (w': World)
    requires DhLaw(w.g.s) && DeriveLaw(w.g.s) && 0 < |w.g.secrets| == |w.g.roots|
    ensures w'.g.s == w.g.s && 0 < |w'.g.secrets| == |w'.g.roots|
  {
    var s := w.g.s;
    match ev
    case Send(from, plaintext, coins) =>
      var p := w.Of(from);
      var w1 := w.With(from, SendBy(s, p, plaintext, coins));
      if Encrypt(s, p.t, plaintext, coins).1.Err? || p.epoch >= |w.g.counts| then w1
      else w1.(g := Counted(w.g, p.epoch))
    case Deliver(to, index, coins) =>
      if index >= |w.Of(Peer(to)).outbox| then w else
        var p' := ReceiveBy(s, w.Of(to), w.Of(Peer(to)).outbox[index], coins);
        w.With(to, p').(g := if p'.epoch == w.Of(to).epoch then w.g else Extended(w.g, coins.dhSecret))
    case PurgeOld(at, maxAge) => w.With(at, w.Of(at).(t := Purge(w.Of(at).t, maxAge)))
    case SetInterval(at, interval) => w.With(at, w.Of(at).(t := w.Of(at).t.(pqInterval := interval)))
  }

  /**
   * What the environment owes the parties: a chain never carries 2^32 - 1 messages, a delivered
   * message was sent by the peer, generated keys do not collide, and no key of the session opens
   * what another one sealed.
   */
  ghost predicate Allowed(w: World, ev: Event)
    requires DhLaw(w.g.s) && DeriveLaw(w.g.s) && 0 < |w.g.secrets| == |w.g.roots|
  {
    match ev
    case Send(from, plaintext, coins) =>
      var p := w.Of(from);
      && p.epoch < |w.g.counts| && w.g.counts[p.epoch] + 1 < U32
      && (Encrypt(w.g.s, p.t, plaintext, coins).1.Ok? ==> Separated(w.g, NewMessage(w.g.s, p, plaintext, coins)))
    case Deliver(to, index, coins) =>
      && index < |w.Of(Peer(to)).outbox|
      && FreshEpoch(w.g, coins.dhSecret)
      && AllSeparated(Extended(w.g, coins.dhSecret), w.alice.outbox)
      && AllSeparated(Extended(w.g, coins.dhSecret), w.bob.outbox)
    case PurgeOld(_, _) => true
    case SetInterval(_, _) => true
  }

  ghost predicate AllSeparated(g: History, outbox: seq<Sent>) {
    forall m :: m in outbox ==> Separated(g, m)
  }

  // ---------------------------------------------------------------
  // The joint invariant
  // ---------------------------------------------------------------

  ghost predicate OutboxOk(g: History, p: Party)
    requires Sound(g)
  {
    && |p.outbox| == p.t.totalSent
    && (forall m :: m in p.outbox ==> Genuine(g, m) && m.epoch <= p.epoch && m.epoch % 2 == p.epoch % 2)
  }

  ghost predicate PartyOk(g: History, p: Party)
    requires Sound(g)
  {
    SessionOk(g, p.t, p.epoch, p.got, p.lost) && OutboxOk(g, p)
  }

  /** The epoch and number of every message sent. */
  function Tags(outbox: seq<Sent>): (tags: set<(nat, nat)>) {
    set m | m in outbox :: (m.epoch, m.header.number)
  }

  ghost predicate Inv(w: World) {
    && HistoryOk(w.g)
    && Neighbours(w.alice.epoch, w.bob.epoch, |w.g.secrets|)
    && PartyOk(w.g, w.alice) && PartyOk(w.g, w.bob)
    && w.alice.got <= Tags(w.bob.outbox) && w.bob.got <= Tags(w.alice.outbox)
  }

  lemma StartInv(s: Suite, shared: Bytes, k: Setup)
    requires Laws(s)
    requires PublicKey(s, k.bobDh) != PublicKey(s, k.aliceDh)
    ensures Start(s, shared, k).Ok? && Inv(Start(s, shared, k).value)
  {
    var g := InitialHistory(s, shared, k);
    assert SharedSecret(s, k.aliceDh, PublicKey(s, k.bobDh)) == SharedSecret(s, k.bobDh, PublicKey(s, k.aliceDh));
    var w := Start(s, shared, k).value;
    assert KeysOf(g, []) == [];
    assert RingAt(g, w.alice.t.ring, 1);
    assert RingAt(g, w.bob.t.ring, 0);
    assert TripleAt(g, w.alice.t, 1);
    assert TripleAt(g, w.bob.t, 0);
  }

  // ---------------------------------------------------------------
  // Sending
  // ---------------------------------------------------------------

  /** Exactly when `encrypt` succeeds: a sending chain exists and a due PQ step can be taken. */
  predicate CanSend(t: Triple) {
    t.dh.send.Some? && (PqDue(t) ==> t.pq.remote.Some?)
  }

  lemma EncryptMeaning(s: Suite, t: Triple, plaintext: Bytes, coins: SendCoins)
    ensures Encrypt(s, t, plaintext, coins).1.Ok? <==> CanSend(t)
    ensures CanSend(t) ==>
              var (t', r) := Encrypt(s, t, plaintext, coins);
              var c := t.dh.send.value;
              && t' == t.(pq := t'.pq, stepsSincePq := t'.stepsSincePq,
                          dh := t.dh.(send := Some(Advanced(s, c))), sendingNumber := Wrap32(c.number + 1),
                          totalSent := t.totalSent + 1)
              && r.value == SealMessage(s, t.ring.sending, MessageKey(s, c.key), SentHeader(s, t, coins), plaintext,
                  coins)
    ensures !CanSend(t) ==>
              var t' := Encrypt(s, t, plaintext, coins).0;
              t' == t.(pq := t'.pq, stepsSincePq := t'.stepsSincePq)
  {
  }

  /** The header `encrypt` builds is well-formed and carries the sender's key, number and counts. */
  lemma SentHeaderOk(s: Suite, t: Triple, coins: SendCoins)
    requires DhLaw(s) && KemLaw(s) && CanSend(t) && t.dh.send.value.number < U32 && t.previousLength < U32
    ensures EncryptPq(s, t, coins).1.Ok? && EncryptKey(s, t.dh).1.Ok?
    ensures var h := SentHeader(s, t, coins);
            && HeaderOk(h) && h.dhPublic == PublicKey(s, t.dh.secret) && h.number == t.dh.send.value.number
            && h.previousLength == t.previousLength
  {
  }

  lemma CountedOk(g: History, e: nat)
    requires HistoryOk(g) && 0 < e < |g.counts| && g.counts[e] + 1 < U32
    ensures HistoryOk(Counted(g, e))
  {
    hide Derivation, DhLaw, DeriveLaw, AeadLaw, KemLaw;
    CountedDerived(g, e);
    CountedKeys(g, e);
  }

  lemma CountedDerived(g: History, e: nat)
    requires Sound(g) && DhLaw(g.s) && DeriveLaw(g.s) && Derived(g) && 0 < e < |g.counts| && g.counts[e] + 1 < U32
    ensures Sound(Counted(g, e)) && Derived(Counted(g, e))
  {
    hide Derivation, DhLaw, DeriveLaw;
    var g' := Counted(g, e);
    forall k | 0 < k < |g'.secrets|
      ensures RootOutput(g'.roots[k], g'.seeds[k], g'.headerKeys[k + 2])
           == Derivation(g'.s, g'.roots[k - 1], g'.secrets[k - 1], g'.secrets[k])
    {
      assert RootOutput(g.roots[k], g.seeds[k], g.headerKeys[k + 2])
          == Derivation(g.s, g.roots[k - 1], g.secrets[k - 1], g.secrets[k]);
    }
  }

  lemma CountedKeys(g: History, e: nat)
    requires Sound(g) && 0 < e < |g.counts| && Sound(Counted(g, e)) && DistinctMessageKeys(g)
    ensures DistinctMessageKeys(Counted(g, e))
  {
    forall x: nat, n: nat | x < |g.seeds| ensures MessageKeyOf(Counted(g, e), x, n) == MessageKeyOf(g, x, n) {
    }
  }

  /** The numbers a party has reached in the peer's epochs do not depend on what is sent after it left them. */
  lemma CountedReached(g: History, t: Triple, j: nat, e: nat, k: nat)
    requires Sound(g) && e < |g.counts| && Sound(Counted(g, e)) && j < |g.counts|
    requires PeerEpoch(j, k) && (e == k ==> k + 1 == j)
    ensures Reached(Counted(g, e), t, j, k) == Reached(g, t, j, k)
  {
  }

  /** A message counted in an epoch that the party has not left leaves its books as they are. */
  lemma CountedBooks(g: History, t: Triple, j: nat, spent: set<(nat, nat)>, e: nat)
    requires Sound(g) && e < |g.counts| && Sound(Counted(g, e)) && j < |g.secrets|
    requires CacheOk(g, t, j) && Accounted(g, t, j, spent) && j <= e + 1
    ensures CacheOk(Counted(g, e), t, j) && Accounted(Counted(g, e), t, j, spent)
  {
    var g' := Counted(g, e);
    forall k: nat | PeerEpoch(j, k) ensures Reached(g', t, j, k) == Reached(g, t, j, k) {
      CountedReached(g, t, j, e, k);
    }
    forall k: nat, n: nat | k < |g.secrets|
      ensures Holds(g', t, k, n) == Holds(g, t, k, n) && SlotAt(g', k, n) == SlotAt(g, k, n)
    {
    }
    forall slot | slot in t.cache ensures exists k, source :: Cached(g', t, j, slot, k, source) {
      var k, source :| Cached(g, t, j, slot, k, source);
      assert Cached(g', t, j, slot, k, source);
    }
  }

  lemma CountedRing(g: History, ring: Ring, j: nat, e: nat)
    requires Sound(g) && e < |g.counts| && j < |g.secrets| && RingAt(g, ring, j)
    ensures RingAt(Counted(g, e), ring, j)
  {
    assert KeysOf(Counted(g, e), Retained(j)) == KeysOf(g, Retained(j));
  }

  /** The other party's session is unaffected by a message sent to it. */
  lemma CountedPeer(g: History, t: Triple, j: nat, got: set<(nat, nat)>, lost: set<(nat, nat)>, e: nat)
    requires HistoryOk(g) && SessionOk(g, t, j, got, lost) && 0 < e < |g.counts| && g.counts[e] + 1 < U32
    requires j == e + 1 || j + 1 == e
    ensures Sound(Counted(g, e)) && SessionOk(Counted(g, e), t, j, got, lost)
  {
    hide CacheOk, Accounted, RingAt, Derived, DhLaw, DeriveLaw, AeadLaw, KemLaw, DistinctMessageKeys;
    CountedOk(g, e);
    CountedBooks(g, t, j, got + lost, e);
    CountedRing(g, t.ring, j, e);
  }

  /** `encrypt` moves the sender's own chain on by one. */
  lemma CountedSender(g: History, t: Triple, j: nat, got: set<(nat, nat)>, lost: set<(nat, nat)>, plaintext: Bytes,
                      coins: SendCoins)
    requires HistoryOk(g) && SessionOk(g, t, j, got, lost) && 0 < j && g.counts[j] + 1 < U32 && CanSend(t)
    ensures Sound(Counted(g, j)) && SessionOk(Counted(g, j), Encrypt(g.s, t, plaintext, coins).0, j, got, lost)
  {
    hide CacheOk, Accounted, RingAt, Derived, DhLaw, DeriveLaw, AeadLaw, KemLaw, DistinctMessageKeys, Encrypt;
    hide SealMessage;
    EncryptMeaning(g.s, t, plaintext, coins);
    CountedOk(g, j);
    CountedBooks(g, t, j, got + lost, j);
    CountedRing(g, t.ring, j, j);
    var g', t' := Counted(g, j), Encrypt(g.s, t, plaintext, coins).0;
    assert t'.dh.send == Some(At(g.s, g'.seeds[j], g'.counts[j]));
    assert ReceivedCount(t'.dh) == ReceivedCount(t.dh);
    SentBooks(g', t, t', j, got + lost);
  }

  lemma SentBooks(g: History, t: Triple, t': Triple, j: nat, spent: set<(nat, nat)>)
    requires Sound(g) && j < |g.secrets| && CacheOk(g, t, j) && Accounted(g, t, j, spent)
    requires ReceivedCount(t'.dh) == ReceivedCount(t.dh) && t'.cache == t.cache && t'.dropped == t.dropped
    ensures CacheOk(g, t', j) && Accounted(g, t', j, spent)
  {
    forall k: nat | PeerEpoch(j, k) ensures Reached(g, t', j, k) == Reached(g, t, j, k) {
    }
    forall k: nat, n: nat | k < |g.secrets| ensures Holds(g, t', k, n) == Holds(g, t, k, n) {
    }
    forall slot | slot in t'.cache ensures exists k, source :: Cached(g, t', j, slot, k, source) {
      var k, source :| Cached(g, t, j, slot, k, source);
      assert Cached(g, t', j, slot, k, source);
    }
  }

  lemma CountedGenuine(g: History, m: Sent, e: nat)
    requires Sound(g) && e < |g.counts| && Sound(Counted(g, e)) && Genuine(g, m) && m.epoch != e + 2
    ensures Genuine(Counted(g, e), m)
  {
    hide SealMessage, HeaderOk;
    CountedSeparated(g, m, e);
    hide Separated;
  }

  lemma CountedSeparated(g: History, m: Sent, e: nat)
    requires Separated(g, m) && e < |g.counts|
    ensures Separated(Counted(g, e), m)
  {
    forall x: nat, n: nat | x < |g.seeds| ensures MessageKeyOf(Counted(g, e), x, n) == MessageKeyOf(g, x, n) {
    }
  }

  lemma CountedOutbox(g: History, p: Party, e: nat)
    requires Sound(g) && e < |g.counts| && Sound(Counted(g, e)) && OutboxOk(g, p) && p.epoch < e + 2
    ensures OutboxOk(Counted(g, e), p)
  {
    forall m | m in p.outbox ensures Genuine(Counted(g, e), m) {
      CountedGenuine(g, m, e);
    }
  }

  /** The message `encrypt` hands over is sealed as its epoch and number demand. */
  lemma SentSealed(g: History, p: Party, plaintext: Bytes, coins: SendCoins)
    requires HistoryOk(g) && TripleAt(g, p.t, p.epoch) && 0 < p.epoch && g.counts[p.epoch] + 1 < U32 && CanSend(p.t)
    ensures Encrypt(g.s, p.t, plaintext, coins).1.Ok? && Sound(Counted(g, p.epoch))
    ensures var m := NewMessage(g.s, p, plaintext, coins);
            Sealed(Counted(g, p.epoch), m) && m.epoch == p.epoch && m.header.number == g.counts[p.epoch]
  {
    hide Derived, DhLaw, DeriveLaw, AeadLaw, KemLaw, DistinctMessageKeys, Encrypt, SealMessage, HeaderOk;
    hide EncryptPq, EncryptKey;
    CountedOk(g, p.epoch);
    EncryptMeaning(g.s, p.t, plaintext, coins);
    SentHeaderOk(g.s, p.t, coins);
  }

  /** It is genuine if no other key of the session opens it. */
  lemma SentGenuine(g: History, p: Party, plaintext: Bytes, coins: SendCoins)
    requires HistoryOk(g) && TripleAt(g, p.t, p.epoch) && 0 < p.epoch && g.counts[p.epoch] + 1 < U32 && CanSend(p.t)
    ensures Encrypt(g.s, p.t, plaintext, coins).1.Ok? && Sound(Counted(g, p.epoch))
    ensures var m := NewMessage(g.s, p, plaintext, coins); Separated(g, m) ==> Genuine(Counted(g, p.epoch), m)
  {
    hide Sealed, Separated, Encrypt, NewMessage, RingAt, Derived, DistinctMessageKeys;
    SentSealed(g, p, plaintext, coins);
    var m := NewMessage(g.s, p, plaintext, coins);
    if Separated(g, m) {
      CountedSeparated(g, m, p.epoch);
    }
  }

  lemma SendOk(g: History, p: Party, plaintext: Bytes, coins: SendCoins)
    requires HistoryOk(g) && PartyOk(g, p) && 0 < p.epoch && g.counts[p.epoch] + 1 < U32 && CanSend(p.t)
    requires Encrypt(g.s, p.t, plaintext, coins).1.Ok? && Separated(g, NewMessage(g.s, p, plaintext, coins))
    ensures var g' := Counted(g, p.epoch);
            HistoryOk(g') && PartyOk(g', SendBy(g.s, p, plaintext, coins))
  {
    hide Derived, DhLaw, DeriveLaw, AeadLaw, KemLaw, DistinctMessageKeys, Encrypt, TripleAt, CacheOk;
    hide Accounted, Genuine, SentHeader;
    hide EncryptPq, Separated;
    var g' := Counted(g, p.epoch);
    CountedOk(g, p.epoch);
    CountedSender(g, p.t, p.epoch, p.got, p.lost, plaintext, coins);
    CountedOutbox(g, p, p.epoch);
    SentGenuine(g, p, plaintext, coins);
    EncryptMeaning(g.s, p.t, plaintext, coins);
    assert OutboxOk(g', SendBy(g.s, p, plaintext, coins));
  }

  /** A refused `encrypt`, a changed interval: nothing delivery depends on. */
  lemma AsideOk(g: History, p: Party, t': Triple)
    requires Sound(g) && PartyOk(g, p) && SameKeys(p.t, t') && t'.totalSent == p.t.totalSent
    requires t'.totalReceived == p.t.totalReceived
    ensures PartyOk(g, p.(t := t'))
  {
    hide TripleAt, CacheOk, Accounted, Genuine;
    SameKeysOk(g, p.t, t', p.epoch, p.got + p.lost);
  }

  lemma PurgeOk(g: History, p: Party, maxAge: nat)
    requires Sound(g) && PartyOk(g, p)
    ensures PartyOk(g, p.(t := Purge(p.t, maxAge)))
  {
    var t' := Purge(p.t, maxAge);
    UncachedAt(g, p.t, t', p.epoch);
    SameKeysCacheOk(g, p.t, t', p.epoch);
    PurgedAccounted(g, p.t, t', p.epoch, p.got + p.lost);
    hide TripleAt, CacheOk, Accounted, Genuine;
  }

  lemma PurgedAccounted(g: History, t: Triple, t': Triple, j: nat, spent: set<(nat, nat)>)
    requires Sound(g) && j < |g.secrets| && Accounted(g, t, j, spent) && t'.dh == t.dh && t.dropped <= t'.dropped
    requires forall slot :: slot in t.cache ==> slot in t'.cache || slot in t'.dropped
    requires forall slot :: slot in t'.cache ==> slot in t.cache && t'.cache[slot] == t.cache[slot]
    ensures Accounted(g, t', j, spent)
  {
    forall k: nat | PeerEpoch(j, k) ensures Reached(g, t', j, k) == Reached(g, t, j, k) {
    }
    forall k: nat, n: nat | k < |g.secrets|
      ensures Holds(g, t', k, n) ==> Holds(g, t, k, n)
      ensures Holds(g, t, k, n) ==> Holds(g, t', k, n) || SlotAt(g, k, n) in t'.dropped
    {
    }
  }

  // ---------------------------------------------------------------
  // Receiving
  // ---------------------------------------------------------------

  lemma ExtendedBooks(g: History, g': History, t: Triple, j: nat, spent: set<(nat, nat)>)
    requires Sound(g) && Sound(g') && Extends(g, g') && j < |g.secrets| && CacheOk(g, t, j) && Accounted(g, t, j, spent)
    ensures CacheOk(g', t, j) && Accounted(g', t, j, spent)
  {
    hide Cached, Holds, SlotAt;
    forall k: nat | PeerEpoch(j, k) ensures Reached(g', t, j, k) == Reached(g, t, j, k) {
    }
    forall k: nat, n: nat | k < |g.secrets|
      ensures Holds(g', t, k, n) == Holds(g, t, k, n) && SlotAt(g', k, n) == SlotAt(g, k, n)
    {
      HoldsExtends(g, g', t, t, k, n);
    }
    forall slot | slot in t.cache ensures exists k, source :: Cached(g', t, j, slot, k, source) {
      var k, source :| Cached(g, t, j, slot, k, source);
      ExtendedCached(g, g', t, j, slot, k, source);
    }
  }

  lemma ExtendedCached(g: History, g': History, t: Triple, j: nat, slot: Slot, e: nat, source: nat)
    requires Sound(g) && Sound(g') && Extends(g, g') && j < |g.secrets| && Cached(g, t, j, slot, e, source)
    ensures Cached(g', t, j, slot, e, source)
  {
    assert g'.secrets[e] == g.secrets[e] && g'.seeds[source] == g.seeds[source] && g'.counts[e] == g.counts[e];
  }

  lemma ExtendedAt(g: History, newSecret: Bytes, t: Triple, j: nat)
    requires HistoryOk(g) && TripleAt(g, t, j)
    ensures Sound(Extended(g, newSecret)) && Extends(g, Extended(g, newSecret))
    ensures TripleAt(Extended(g, newSecret), t, j)
  {
    hide RingAt, Derivation, DistinctMessageKeys, DistinctPublics;
    ExtendedSound(g, newSecret);
    RingStable(g, newSecret, t.ring, j);
  }

  /** A longer history is as good for the party that did not move. */
  lemma ExtendedPeer(g: History, newSecret: Bytes, p: Party)
    requires HistoryOk(g) && PartyOk(g, p) && AllSeparated(Extended(g, newSecret), p.outbox)
    ensures Sound(Extended(g, newSecret)) && PartyOk(Extended(g, newSecret), p)
  {
    hide TripleAt, CacheOk, Accounted, Genuine, Extended, DistinctMessageKeys, DistinctPublics, Derived, Separated;
    var g' := Extended(g, newSecret);
    ExtendedAt(g, newSecret, p.t, p.epoch);
    ExtendedBooks(g, g', p.t, p.epoch, p.got + p.lost);
    ExtendedOutbox(g, newSecret, p);
  }

  lemma ExtendedOutbox(g: History, newSecret: Bytes, p: Party)
    requires HistoryOk(g) && OutboxOk(g, p) && Sound(Extended(g, newSecret))
    requires AllSeparated(Extended(g, newSecret), p.outbox)
    ensures OutboxOk(Extended(g, newSecret), p)
  {
    hide Genuine, Extended, DistinctMessageKeys, DistinctPublics, Derived, Separated;
    forall m | m in p.outbox ensures Genuine(Extended(g, newSecret), m) {
      GenuineStable(g, newSecret, m);
    }
  }

  lemma ReceiveOk(g: History, p: Party, m: Sent, coins: ReceiveCoins)
    requires HistoryOk(g) && PartyOk(g, p) && FromPeer(g, p.epoch, m)
    requires (m.epoch == p.epoch + 1 ==> |g.secrets| == p.epoch + 2) && FreshEpoch(g, coins.dhSecret)
    requires Separated(Extended(g, coins.dhSecret), m) && AllSeparated(Extended(g, coins.dhSecret), p.outbox)
    ensures p.epoch < |g.secrets|
    ensures var p' := ReceiveBy(g.s, p, m, coins);
            var moves := Moves(g, p.t, p.epoch, m);
            var g' := if moves then Extended(g, coins.dhSecret) else g;
            && p'.epoch == (if moves then p.epoch + 2 else p.epoch)
            && HistoryOk(g') && PartyOk(g', p')
            && p'.got == (if Deliverable(g, p.t, p.epoch, m) then p.got + {(m.epoch, m.header.number)} else p.got)
  {
    hide Decrypt, TripleAt, CacheOk, Accounted, Genuine, Extended, DistinctMessageKeys, DistinctPublics;
    hide Derived, Misread, RestTooLong;
    hide Separated, Deliverable, LostAfter;
    DecryptOutcome(g, p.t, p.epoch, p.got, p.lost, m, coins);
    if Moves(g, p.t, p.epoch, m) {
      ExtendedOutbox(g, coins.dhSecret, p);
    }
  }

  // ---------------------------------------------------------------
  // Every run
  // ---------------------------------------------------------------

  lemma SendInv(w: World, from: Side, plaintext: Bytes, coins: SendCoins)
    requires Inv(w) && Allowed(w, Send(from, plaintext, coins))
    ensures Inv(Next(w, Send(from, plaintext, coins)))
  {
    hide TripleAt, CacheOk, Accounted, OutboxOk, Encrypt, SentHeader, EncryptPq, Derived, DistinctMessageKeys;
    hide DistinctPublics;
    hide Separated;
    var g, p, q := w.g, w.Of(from), w.Of(Peer(from));
    var p' := SendBy(g.s, p, plaintext, coins);
    EncryptMeaning(g.s, p.t, plaintext, coins);
    if CanSend(p.t) {
      SenderStarted(g, p);
      SendOk(g, p, plaintext, coins);
      CountedPeerOk(g, q, p.epoch);
      assert Tags(p.outbox) <= Tags(p'.outbox);
    } else {
      AsideOk(g, p, p'.t);
    }
  }

  lemma SenderStarted(g: History, p: Party)
    requires Sound(g) && PartyOk(g, p) && CanSend(p.t)
    ensures 0 < p.epoch < |g.counts|
  {
  }

  lemma CountedPeerOk(g: History, q: Party, e: nat)
    requires HistoryOk(g) && PartyOk(g, q) && 0 < e < |g.counts| && g.counts[e] + 1 < U32
    requires q.epoch == e + 1 || q.epoch + 1 == e
    ensures HistoryOk(Counted(g, e)) && PartyOk(Counted(g, e), q)
  {
    hide TripleAt, CacheOk, Accounted, OutboxOk;
    CountedOk(g, e);
    CountedPeer(g, q.t, q.epoch, q.got, q.lost, e);
    CountedOutbox(g, q, e);
  }

  /** A delivered message is one a party in the receiver's epoch can meet. */
  lemma DeliveredFromPeer(w: World, to: Side, m: Sent)
    requires Inv(w) && m in w.Of(Peer(to)).outbox
    ensures FromPeer(w.g, w.Of(to).epoch, m)
    ensures m.epoch == w.Of(to).epoch + 1 ==> |w.g.secrets| == w.Of(to).epoch + 2
  {
    hide TripleAt, CacheOk, Accounted, Genuine, Derived, DistinctMessageKeys, DistinctPublics;
  }

  lemma DeliverInv(w: World, to: Side, index: nat, coins: ReceiveCoins)
    requires Inv(w) && Allowed(w, Deliver(to, index, coins))
    ensures Inv(Next(w, Deliver(to, index, coins)))
  {
    hide SessionOk, OutboxOk, Decrypt, Extended, Misread, DistinctMessageKeys, DistinctPublics, Derived, Laws;
    hide Genuine, Separated;
    hide FreshEpoch;
    var g, p, q := w.g, w.Of(to), w.Of(Peer(to));
    var m := q.outbox[index];
    DeliveredFromPeer(w, to, m);
    HistoryLaws(g);
    SessionAt(g, p);
    ReceiveOk(g, p, m, coins);
    var p' := ReceiveBy(g.s, p, m, coins);
    assert p'.got <= Tags(q.outbox) by {
      assert (m.epoch, m.header.number) in Tags(q.outbox);
    }
    if p'.epoch != p.epoch {
      ExtendedPeer(g, coins.dhSecret, q);
      ExtendedSize(g, coins.dhSecret);
      NeighboursSwap(w.alice.epoch, w.bob.epoch, |g.secrets|);
    }
  }

  lemma HistoryLaws(g: History)
    requires HistoryOk(g)
    ensures DhLaw(g.s) && DeriveLaw(g.s)
  {
  }

  lemma SessionAt(g: History, p: Party)
    requires Sound(g) && PartyOk(g, p)
    ensures p.epoch < |g.secrets|
  {
  }

  lemma ExtendedSize(g: History, newSecret: Bytes)
    requires DhLaw(g.s) && DeriveLaw(g.s) && 0 < |g.secrets| == |g.roots|
    ensures |Extended(g, newSecret).secrets| == |g.secrets| + 1
  {
  }

  lemma NextInv(w: World, ev: Event)
    requires Inv(w) && Allowed(w, ev)
    ensures Inv(Next(w, ev))
  {
    hide SessionOk, OutboxOk, Derived, DistinctMessageKeys, DistinctPublics;
    match ev
    case Send(from, plaintext, coins) => SendInv(w, from, plaintext, coins);
    case Deliver(to, index, coins) => DeliverInv(w, to, index, coins);
    case PurgeOld(at, maxAge) => PurgeOk(w.g, w.Of(at), maxAge);
    case SetInterval(at, interval) => AsideOk(w.g, w.Of(at), w.Of(at).t.(pqInterval := interval));
  }

  ghost predicate AllowedRun(w: World, evs: seq<Event>)
    requires DhLaw(w.g.s) && DeriveLaw(w.g.s) && 0 < |w.g.secrets| == |w.g.roots|
    decreases |evs|
  {
    evs == [] || (Allowed(w, evs[0]) && AllowedRun(Next(w, evs[0]), evs[1..]))
  }

  ghost function Run(w: World, evs: seq<Event>): (w': World)
    requires DhLaw(w.g.s) && DeriveLaw(w.g.s) && 0 < |w.g.secrets| == |w.g.roots|
    ensures w'.g.s == w.g.s && 0 < |w'.g.secrets| == |w'.g.roots|
    decreases |evs|
  {
    if evs == [] then w else Run(Next(w, evs[0]), evs[1..])
  }

  lemma {:induction false} RunInv(w: World, evs: seq<Event>)
    requires Inv(w) && AllowedRun(w, evs)
    ensures Inv(Run(w, evs))
    decreases |evs|
  {
    hide Next, Allowed, PartyOk, Derived, DistinctMessageKeys, DistinctPublics;
    if evs != [] {
      NextInv(w, evs[0]);
      RunInv(Next(w, evs[0]), evs[1..]);
    }
  }

  lemma InvLaws(w: World)
    requires Inv(w)
    ensures DhLaw(w.g.s) && DeriveLaw(w.g.s) && 0 < |w.g.secrets| == |w.g.roots|
  {
  }

  /** The two ratchet keys do not collide. */
  ghost predicate GoodSetup(s: Suite, shared: Bytes, k: Setup)
    requires DhLaw(s) && DeriveLaw(s)
  {
    PublicKey(s, k.bobDh) != PublicKey(s, k.aliceDh)
  }

  /** A state that some allowed run from the two initialisers leads to. */
  ghost predicate ReachableBy(s: Suite, shared: Bytes, k: Setup, evs: seq<Event>, w: World)
    requires Laws(s)
  {
    && GoodSetup(s, shared, k)
    && Start(s, shared, k).Ok?
    && AllowedRun(Start(s, shared, k).value, evs)
    && w == Run(Start(s, shared, k).value, evs)
  }

  ghost predicate Reachable(s: Suite, w: World)
    requires Laws(s)
    ensures Reachable(s, w) ==> w.g.s == s && 0 < |w.g.secrets| == |w.g.roots|
  {
    exists shared: Bytes, k: Setup, evs: seq<Event> :: ReachableBy(s, shared, k, evs, w)
  }

  lemma ReachableInv(s: Suite, w: World)
    requires Laws(s) && Reachable(s, w)
    ensures Inv(w)
  {
    hide AllowedRun, Run, InitialHistory, Start, DistinctMessageKeys, PartyOk, Derived;
    var shared: Bytes, k: Setup, evs: seq<Event> :| ReachableBy(s, shared, k, evs, w);
    StartInv(s, shared, k);
    RunInv(Start(s, shared, k).value, evs);
  }

  lemma {:induction false} RunAppend(w: World, evs: seq<Event>, more: seq<Event>)
    requires DhLaw(w.g.s) && DeriveLaw(w.g.s) && 0 < |w.g.secrets| == |w.g.roots|
    requires AllowedRun(w, evs) && AllowedRun(Run(w, evs), more)
    ensures AllowedRun(w, evs + more) && Run(w, evs + more) == Run(Run(w, evs), more)
    decreases |evs|
  {
    hide Allowed, Next;
    if evs == [] {
      assert evs + more == more;
    } else {
      RunAppend(Next(w, evs[0]), evs[1..], more);
      assert (evs + more)[1..] == evs[1..] + more && (evs + more)[0] == evs[0];
    }
  }

  /** A run from a reachable state leads to one. */
  lemma ReachableOn(s: Suite, w: World, more: seq<Event>)
    requires Laws(s) && Reachable(s, w) && AllowedRun(w, more)
    ensures Reachable(s, Run(w, more))
  {
    hide AllowedRun, Run, Start, GoodSetup, DhLaw, DeriveLaw, AeadLaw, KemLaw;
    var shared: Bytes, k: Setup, evs: seq<Event> :| ReachableBy(s, shared, k, evs, w);
    RunAppend(Start(s, shared, k).value, evs, more);
    assert ReachableBy(s, shared, k, evs + more, Run(w, more));
  }

  /** What a party never forgets: its epoch, what it sent, and what is decrypted or lost. */
  ghost predicate Remembers(p: Party, p': Party) {
    p.epoch <= p'.epoch && p.outbox <= p'.outbox && p.got + p.lost <= p'.got + p'.lost
  }

  lemma NextRemembers(w: World, ev: Event, side: Side)
    requires DhLaw(w.g.s) && DeriveLaw(w.g.s) && 0 < |w.g.secrets| == |w.g.roots|
    ensures Remembers(w.Of(side), Next(w, ev).Of(side))
  {
    hide Encrypt, Decrypt, Misread, LostTo, Extended, Counted, NewMessage;
  }

  lemma {:induction false} RunRemembers(w: World, evs: seq<Event>, side: Side)
    requires DhLaw(w.g.s) && DeriveLaw(w.g.s) && 0 < |w.g.secrets| == |w.g.roots|
    ensures Remembers(w.Of(side), Run(w, evs).Of(side))
    decreases |evs|
  {
    hide Next;
    if evs != [] {
      NextRemembers(w, evs[0], side);
      RunRemembers(Next(w, evs[0]), evs[1..], side);
    }
  }
}
