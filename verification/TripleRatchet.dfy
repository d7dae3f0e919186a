/** The triple ratchet session: DH, symmetric and PQ ratchets, header encryption, skipped keys. */
module TripleRatchet {
  import opened Wrappers
  import opened Bytes
  import opened Primitives
  import opened SymmetricRatchet
  import opened DhRatchet
  import opened PqRatchet
  import opened MessageFormat

  /** Most message keys kept for late messages. */
  const MAX_SKIPPED_KEYS: nat := 1000

  /** DH steps between PQ steps, unless changed. */
  const DEFAULT_PQ_INTERVAL: nat := 20

  /** Most header keys of older epochs kept. */
  const MAX_RETAINED_HEADER_KEYS: nat := 10

  /** The header keys of a session. */
  datatype Ring = Ring(
    sending: Bytes,
    receiving: Bytes,
    previous: Option<Bytes>,
    retained: seq<Bytes>,
    nextSending: Bytes,
    nextReceiving: Bytes
  )

  /** A skipped message is found by the sender's ratchet key and the message number. */
  type Slot = (Bytes, nat)
  datatype Skipped = Skipped(key: Bytes, step: nat)
  type Cache = map<Slot, Skipped>

  /** The value of a `TripleRatchetSession`; `dropped` is history: slots evicted or purged. */
  datatype Triple = Triple(
    dh: Dh,
    pq: Pq,
    ring: Ring,
    cache: Cache,
    dropped: set<Slot>,
    pqInterval: nat,
    stepsSincePq: nat,
    previousLength: nat,
    sendingNumber: nat,
    totalSent: nat,
    totalReceived: nat
  )

  /** Randomness of `encrypt`: KEM coins, the new KEM pair, the two nonces. */
  datatype SendCoins = SendCoins(kemCoins: Bytes, kemSecret: Bytes, headerNonce: Bytes, bodyNonce: Bytes)

  /** Randomness of `decrypt`: the new DH and KEM pairs, and which slot a full hash map yields first. */
  datatype ReceiveCoins = ReceiveCoins(dhSecret: Bytes, kemSecret: Bytes, victim: Cache -> Slot)

  // ---------------------------------------------------------------
  // Initialisation
  // ---------------------------------------------------------------

  function SessionRoot(s: Suite, shared: Bytes): (r: Bytes) {
    Derive(s, shared, [], SessionRootInfo, KEY_SIZE)
  }

  /** The i-th of the three header keys derived from the shared secret (`extract_key`). */
  function InitialHeaderKey(s: Suite, shared: Bytes, i: nat): (r: Bytes)
    requires DeriveLaw(s) && i < 3
    ensures |r| == KEY_SIZE
  {
    Derive(s, shared, [], SessionHeaderInfo, 96)[i * 32..i * 32 + 32]
  }

  function InitialPq(s: Suite, shared: Bytes, kemSecret: Bytes): (p: Pq) {
    Pq(kemSecret, None, Derive(s, shared, [], SessionPqInfo, KEY_SIZE), 0)
  }

  function NewSession(dh: Dh, pq: Pq, ring: Ring): (t: Triple) {
    Triple(dh, pq, ring, map[], {}, DEFAULT_PQ_INTERVAL, 0, 0, 0, 0, 0)
  }

  /** `init_sender`. */
  function InitTripleSender(s: Suite, shared: Bytes, remoteDh: Bytes, remoteKem: Bytes,
                            dhSecret: Bytes, kemSecret: Bytes): (r: Result<Triple>)
    requires DeriveLaw(s)
  {
    match InitSender(s, SessionRoot(s, shared), remoteDh, dhSecret)
    case Err(e) => Err(e)
    case Ok((dh, header)) =>
      Ok(NewSession(dh, InitialPq(s, shared, kemSecret).(remote := Some(remoteKem)),
                    Ring(InitialHeaderKey(s, shared, 0), InitialHeaderKey(s, shared, 1), None, [],
                         header, InitialHeaderKey(s, shared, 2))))
  }

  /** `init_receiver`; its next receiving header key is a placeholder. */
  function InitTripleReceiver(s: Suite, shared: Bytes, dhSecret: Bytes, kemSecret: Bytes): (t: Triple)
    requires DeriveLaw(s)
  {
    NewSession(InitReceiver(SessionRoot(s, shared), dhSecret), InitialPq(s, shared, kemSecret),
               Ring(InitialHeaderKey(s, shared, 1), InitialHeaderKey(s, shared, 0), None, [],
                    InitialHeaderKey(s, shared, 2), InitialHeaderKey(s, shared, 2)))
  }

  /**
   * What both sides start from: root, PQ chain key and header keys are derived from the shared secret,
   * each for its purpose. The first header key is the sender's, the second the receiver's; the third
   * is the next one the sender awaits and the receiver uses.
   */
  lemma InitialKeys(s: Suite, shared: Bytes, remoteDh: Bytes, remoteKem: Bytes, dhSecret: Bytes, kemSecret: Bytes)
    requires DeriveLaw(s)
    ensures var r := InitTripleReceiver(s, shared, dhSecret, kemSecret);
            && r.dh.root == s.derive(shared, [], SessionRootInfo, 32)
            && r.pq.chainKey == s.derive(shared, [], SessionPqInfo, 32) && r.pq.secret == kemSecret
            && r.ring.receiving + r.ring.sending + r.ring.nextSending == s.derive(shared, [], SessionHeaderInfo, 96)
    ensures var t := InitTripleSender(s, shared, remoteDh, remoteKem, dhSecret, kemSecret);
            t.Ok? ==>
              && t.value.pq.chainKey == s.derive(shared, [], SessionPqInfo, 32)
              && t.value.pq.secret == kemSecret && t.value.pq.remote == Some(remoteKem)
              && t.value.ring.sending + t.value.ring.receiving + t.value.ring.nextReceiving
                 == s.derive(shared, [], SessionHeaderInfo, 96)
              && t.value.pqInterval == 20
  {
    hide InitSender;
    var h := Derive(s, shared, [], SessionHeaderInfo, 96);
    assert h[0..32] + h[32..64] + h[64..96] == h;
  }

  // ---------------------------------------------------------------
  // Encryption
  // ---------------------------------------------------------------

  predicate PqDue(t: Triple) {
    t.pqInterval > 0 && t.stepsSincePq >= t.pqInterval
  }

  /** The PQ part of `encrypt`: a step if one is due. */
  function EncryptPq(s: Suite, t: Triple, coins: SendCoins): (r: (Triple, Result<Option<KemData>>)) {
    if !PqDue(t) then (t, Ok(None)) else
      var (pq, r) := Initiate(s, t.pq, coins.kemCoins, coins.kemSecret);
      match r
      case Err(e) => (t.(pq := pq), Err(e))
      case Ok(data) => (t.(pq := pq, stepsSincePq := 0), Ok(Some(data)))
  }

  function HeaderFor(out: Outgoing, previousLength: nat, kem: Option<KemData>): (h: Header) {
    Header(out.publicKey, out.number, previousLength,
           if kem.Some? then Some(kem.value.ciphertext) else None,
           if kem.Some? then Some(kem.value.publicKey) else None)
  }

  function SealMessage(s: Suite, headerKey: Bytes, key: Bytes, h: Header, plaintext: Bytes,
                       coins: SendCoins): (m: Encrypted) {
    var header := Seal(s, headerKey, coins.headerNonce, EncodeHeader(h), []);
    Encrypted(header, coins.headerNonce, Seal(s, key, coins.bodyNonce, plaintext, header), coins.bodyNonce)
  }

  function Encrypt(s: Suite, t: Triple, plaintext: Bytes, coins: SendCoins): (r: (Triple, Result<Encrypted>)) {
    var (t1, kem) := EncryptPq(s, t, coins);
    match kem
    case Err(e) => (t1, Err(e))
    case Ok(data) =>
      var (dh, out) := EncryptKey(s, t1.dh);
      match out
      case Err(e) => (t1.(dh := dh), Err(e))
      case Ok(o) =>
        var h := HeaderFor(o, t1.previousLength, data);
        (t1.(dh := dh, sendingNumber := Wrap32(o.number + 1), totalSent := t1.totalSent + 1),
         Ok(SealMessage(s, t1.ring.sending, o.key, h, plaintext, coins)))
  }

  // ---------------------------------------------------------------
  // Skipped keys
  // ---------------------------------------------------------------

  /** `store_skipped_key`: a full cache first loses whichever slot comes up. */
  function Store(t: Triple, publicKey: Bytes, number: nat, key: Bytes, victim: Cache -> Slot): (t': Triple) {
    var full := |t.cache| >= MAX_SKIPPED_KEYS;
    var kept := if full then t.cache - {victim(t.cache)} else t.cache;
    t.(cache := kept[(publicKey, number) := Skipped(key, t.dh.steps)],
       dropped := if full then t.dropped + {victim(t.cache)} else t.dropped)
  }

  function StoreAll(t: Triple, publicKey: Bytes, keys: Keys, victim: Cache -> Slot): (t': Triple)
    decreases |keys|
  {
    if keys == [] then t
    else StoreAll(Store(t, publicKey, keys[0].0, keys[0].1, victim), publicKey, keys[1..], victim)
  }

  /** `purge_skipped_keys_older_than`. */
  function Purge(t: Triple, maxAge: nat): (t': Triple) {
    var expired := set slot | slot in t.cache && t.dh.steps - t.cache[slot].step > maxAge;
    t.(cache := t.cache - expired, dropped := t.dropped + expired)
  }

  // ---------------------------------------------------------------
  // Decryption
  // ---------------------------------------------------------------

  /** Open a header with one key. */
  function TryHeader(s: Suite, key: Bytes, m: Encrypted): (h: Option<Header>) {
    match Open(s, key, m.headerNonce, m.header, [])
    case None => None
    case Some(bytes) => if DecodeHeader(bytes).Ok? then Some(DecodeHeader(bytes).value) else None
  }

  /** Open a header with the first key that works. */
  function FirstHeader(s: Suite, keys: seq<Bytes>, m: Encrypted): (h: Option<Header>)
    decreases |keys|
  {
    if keys == [] then None
    else if TryHeader(s, keys[0], m).Some? then TryHeader(s, keys[0], m)
    else FirstHeader(s, keys[1..], m)
  }

  /** The receiving header keys in the order `try_skipped_keys` tries them. */
  function TrialKeys(ring: Ring): (keys: seq<Bytes>) {
    [ring.receiving, ring.nextReceiving] + (if ring.previous.Some? then [ring.previous.value] else []) + ring.retained
  }

  /** `try_skipped_keys`: the plaintext, if the message's key is in the cache. */
  function TrySkipped(s: Suite, t: Triple, m: Encrypted): (r: (Triple, Result<Option<Bytes>>)) {
    if t.cache == map[] then (t, Ok(None)) else
      match FirstHeader(s, TrialKeys(t.ring), m)
      case None => (t, Ok(None))
      case Some(h) =>
        var slot := (h.dhPublic, h.number);
        if slot !in t.cache then (t, Ok(None)) else
          var t1 := t.(cache := t.cache - {slot});
          match Open(s, t.cache[slot].key, m.bodyNonce, m.body, m.header)
          case None => (t1, Err(Aead))
          case Some(plaintext) => (t1.(totalReceived := t1.totalReceived + 1), Ok(Some(plaintext)))
  }

  /** `try_decrypt_header_and_detect_ratchet`: the header, and whether a DH step is needed. */
  function Detect(s: Suite, t: Triple, m: Encrypted): (r: Result<(Header, bool)>) {
    var next := TryHeader(s, t.ring.nextReceiving, m);
    if next.Some? then Ok((next.value, true)) else
      var current := TryHeader(s, t.ring.receiving, m);
      if current.Some? then Ok((current.value, t.dh.remote != Some(current.value.dhPublic))) else
        if t.ring.previous.None? then Err(HeaderEncryption) else
          var previous := TryHeader(s, t.ring.previous.value, m);
          if previous.Some? then Ok((previous.value, false)) else Err(HeaderEncryption)
  }

  /** The receiving keys move on: current becomes previous, previous is retained if there is room. */
  function RotateRing(ring: Ring): (r: Ring) {
    ring.(
      previous := Some(ring.receiving),
      retained := if ring.previous.Some? && |ring.retained| < MAX_RETAINED_HEADER_KEYS
                  then ring.retained + [ring.previous.value] else ring.retained,
      receiving := ring.nextReceiving,
      sending := ring.nextSending)
  }

  /** Before a DH step: the keys not yet taken from the old chain go to the cache. */
  function SaveOldChain(s: Suite, t: Triple, h: Header, victim: Cache -> Slot): (r: (Triple, Result<()>)) {
    match t.dh.remote
    case None => (t, Ok(()))
    case Some(oldRemote) =>
      var (dh, r) := SkipRemaining(s, t.dh, h.previousLength);
      match r
      case Err(e) => (t.(dh := dh), Err(e))
      case Ok(keys) => (StoreAll(t.(dh := dh), oldRemote, keys, victim), Ok(()))
  }

  /** The header keys rotate and the DH ratchet steps; the chain counters start over. */
  function StepInto(s: Suite, t: Triple, remote: Bytes, dhSecret: Bytes): (r: (Triple, Result<()>))
    requires DeriveLaw(s)
  {
    var ring := RotateRing(t.ring);
    var (dh, stepped) := RatchetStep(s, t.dh, remote, dhSecret);
    match stepped
    case Err(e) => (t.(ring := ring, dh := dh), Err(e))
    case Ok(keys) =>
      (t.(dh := dh, stepsSincePq := Wrap32(t.stepsSincePq + 1),
          ring := ring.(nextReceiving := keys.receiving, nextSending := keys.sending),
          previousLength := t.sendingNumber, sendingNumber := 0),
       Ok(()))
  }

  /** The DH part of `decrypt` when the peer has moved to a new epoch. */
  function EnterEpoch(s: Suite, t: Triple, h: Header, coins: ReceiveCoins): (r: (Triple, Result<()>))
    requires DeriveLaw(s)
  {
    var (t1, saved) := SaveOldChain(s, t, h, coins.victim);
    match saved
    case Err(e) => (t1, Err(e))
    case Ok(_) => StepInto(s, t1, h.dhPublic, coins.dhSecret)
  }

  /** The PQ part of `decrypt`. */
  function ReceivePq(s: Suite, t: Triple, h: Header, coins: ReceiveCoins): (t': Triple) {
    if h.kemCiphertext.Some? && h.kemPublic.Some?
    then t.(pq := Complete(s, t.pq, KemData(h.kemCiphertext.value, h.kemPublic.value), coins.kemSecret))
    else t
  }

  /** The last part of `decrypt`: the message key from the receiving chain, and the body. */
  function OpenBody(s: Suite, t: Triple, h: Header, m: Encrypted, victim: Cache -> Slot): (r: (Triple, Result<Bytes>)) {
    var (dh, r) := ReceiveKey(s, t.dh, h.number);
    match r
    case Err(e) => (t.(dh := dh), Err(e))
    case Ok(incoming) =>
      var t1 := StoreAll(t.(dh := dh), h.dhPublic, incoming.skipped, victim);
      match Open(s, incoming.key, m.bodyNonce, m.body, m.header)
      case None => (t1, Err(Aead))
      case Some(plaintext) => (t1.(totalReceived := t1.totalReceived + 1), Ok(plaintext))
  }

  function Decrypt(s: Suite, t: Triple, m: Encrypted, coins: ReceiveCoins): (r: (Triple, Result<Bytes>))
    requires DeriveLaw(s)
  {
    var (t1, cached) := TrySkipped(s, t, m);
    match cached
    case Err(e) => (t1, Err(e))
    case Ok(Some(plaintext)) => (t1, Ok(plaintext))
    case Ok(None) =>
      match Detect(s, t1, m)
      case Err(e) => (t1, Err(e))
      case Ok((h, changed)) =>
        var (t2, entered) := if changed then EnterEpoch(s, t1, h, coins) else (t1, Ok(()));
        match entered
        case Err(e) => (t2, Err(e))
        case Ok(_) => OpenBody(s, ReceivePq(s, t2, h, coins), h, m, coins.victim)
  }

  /** Which header key decides, for any bytes: the first that opens, current, next, previous, then the older ones. */
  lemma TrialOrder(s: Suite, ring: Ring, m: Encrypted)
    ensures var first := FirstHeader(s, TrialKeys(ring), m);
            && (TryHeader(s, ring.receiving, m).Some? ==> first == TryHeader(s, ring.receiving, m))
            && (TryHeader(s, ring.receiving, m).None? && TryHeader(s, ring.nextReceiving, m).Some? ==>
                  first == TryHeader(s, ring.nextReceiving, m))
            && (TryHeader(s, ring.receiving, m).None? && TryHeader(s, ring.nextReceiving, m).None? ==>
                  first == if ring.previous.Some? && TryHeader(s, ring.previous.value, m).Some?
                           then TryHeader(s, ring.previous.value, m) else FirstHeader(s, ring.retained, m))
  {
    hide TryHeader;
    var keys := TrialKeys(ring);
    var older := (if ring.previous.Some? then [ring.previous.value] else []) + ring.retained;
    assert keys[1..][1..] == older && keys[1..][0] == ring.nextReceiving;
    assert FirstHeader(s, keys[1..], m)
        == if TryHeader(s, ring.nextReceiving, m).Some? then TryHeader(s, ring.nextReceiving, m)
           else FirstHeader(s, older, m);
    assert ring.previous.None? ==> older == ring.retained;
    assert ring.previous.Some? ==> older[1..] == ring.retained;
  }

  /** For `decrypt` itself the next key comes first: it alone, or another remote key, means a DH step. */
  lemma DetectOrder(s: Suite, t: Triple, m: Encrypted)
    ensures TryHeader(s, t.ring.nextReceiving, m).Some? ==>
              Detect(s, t, m) == Ok((TryHeader(s, t.ring.nextReceiving, m).value, true))
    ensures TryHeader(s, t.ring.nextReceiving, m).None? && TryHeader(s, t.ring.receiving, m).Some? ==>
              var h := TryHeader(s, t.ring.receiving, m).value;
              Detect(s, t, m) == Ok((h, t.dh.remote != Some(h.dhPublic)))
    ensures TryHeader(s, t.ring.nextReceiving, m).None? && TryHeader(s, t.ring.receiving, m).None? ==>
              (Detect(s, t, m).Ok? <==> t.ring.previous.Some? && TryHeader(s, t.ring.previous.value, m).Some?)
              && (Detect(s, t, m).Ok? ==>
                    Detect(s, t, m).value == (TryHeader(s, t.ring.previous.value, m).value, false))
  {
    hide TryHeader;
  }

  /** What `encrypt` hands over: the header sealed under the header key, the body bound to it, fresh nonces for both. */
  lemma SealedWith(s: Suite, headerKey: Bytes, key: Bytes, h: Header, plaintext: Bytes, coins: SendCoins)
    ensures var m := SealMessage(s, headerKey, key, h, plaintext, coins);
            && m.headerNonce == coins.headerNonce && m.bodyNonce == coins.bodyNonce
            && m.header == s.seal(headerKey, coins.headerNonce, EncodeHeader(h), [])
            && m.body == s.seal(key, coins.bodyNonce, plaintext, m.header)
  {
    hide EncodeHeader;
  }

  /** An epoch whose DH step fails: the header keys have moved on all the same, the counters have not. */
  lemma FailedEpoch(s: Suite, t: Triple, remote: Bytes, dhSecret: Bytes)
    requires DeriveLaw(s) && StepInto(s, t, remote, dhSecret).1.Err?
    ensures var t' := StepInto(s, t, remote, dhSecret).0;
            && t'.ring.receiving == t.ring.nextReceiving && t'.ring.sending == t.ring.nextSending
            && t'.ring.previous == Some(t.ring.receiving)
            && t'.ring.nextReceiving == t.ring.nextReceiving && t'.ring.nextSending == t.ring.nextSending
            && t'.dh == RatchetStep(s, t.dh, remote, dhSecret).0
            && t' == t.(ring := t'.ring, dh := t'.dh)
  {
    hide RatchetStep;
  }

  /** A header that opens has a message number and a chain length that fit a `u32`. */
  lemma OpenedHeaderOk(s: Suite, key: Bytes, m: Encrypted)
    requires TryHeader(s, key, m).Some?
    ensures HeaderOk(TryHeader(s, key, m).value)
  {
    HeaderReencodes(Open(s, key, m.headerNonce, m.header, []).value);
  }

  lemma DetectedHeaderOk(s: Suite, t: Triple, m: Encrypted)
    requires Detect(s, t, m).Ok?
    ensures HeaderOk(Detect(s, t, m).value.0)
  {
    if TryHeader(s, t.ring.nextReceiving, m).Some? {
      OpenedHeaderOk(s, t.ring.nextReceiving, m);
    } else if TryHeader(s, t.ring.receiving, m).Some? {
      OpenedHeaderOk(s, t.ring.receiving, m);
    } else {
      OpenedHeaderOk(s, t.ring.previous.value, m);
    }
  }

  // ---------------------------------------------------------------
  // The object
  // ---------------------------------------------------------------

  /** `TripleRatchetSession`. */
  class TripleRatchetSession {
    const suite: Suite
    const dhRatchet: DhRatchetState
    const pqRatchet: PqRatchetState
    var sendingHeaderKey: Bytes
    var receivingHeaderKey: Bytes
    var previousReceivingHeaderKey: Option<Bytes>
    var retainedHeaderKeys: seq<Bytes>
    var nextSendingHeaderKey: Bytes
    var nextReceivingHeaderKey: Bytes
    var skippedKeys: Cache
    var pqStepInterval: nat
    var dhStepsSincePq: nat
    var previousChainLength: nat
    var sendingMessageNumber: nat
    var totalMessagesSent: nat
    var totalMessagesReceived: nat
    ghost var dropped: set<Slot>

    ghost predicate Valid()
      reads this, dhRatchet, dhRatchet.sendingChain, dhRatchet.receivingChain, pqRatchet
    {
      && dhRatchet.Valid() && dhRatchet.suite == suite && pqRatchet.suite == suite
    }

    ghost function RingValue(): (r: Ring)
      reads this
    {
      Ring(sendingHeaderKey, receivingHeaderKey, previousReceivingHeaderKey, retainedHeaderKeys,
           nextSendingHeaderKey, nextReceivingHeaderKey)
    }

    ghost function Value(): (t: Triple)
      reads this, dhRatchet, dhRatchet.sendingChain, dhRatchet.receivingChain, pqRatchet
    {
      Triple(dhRatchet.Value(), pqRatchet.Value(), RingValue(), skippedKeys, dropped, pqStepInterval,
             dhStepsSincePq, previousChainLength, sendingMessageNumber, totalMessagesSent, totalMessagesReceived)
    }

    constructor (dh: DhRatchetState, pq: PqRatchetState, ring: Ring)
      requires dh.Valid() && pq.suite == dh.suite
      ensures Valid() && suite == dh.suite && dhRatchet == dh && pqRatchet == pq
      ensures Value() == NewSession(dh.Value(), pq.Value(), ring)
    {
      suite := dh.suite;
      dhRatchet, pqRatchet := dh, pq;
      sendingHeaderKey, receivingHeaderKey := ring.sending, ring.receiving;
      previousReceivingHeaderKey, retainedHeaderKeys := ring.previous, ring.retained;
      nextSendingHeaderKey, nextReceivingHeaderKey := ring.nextSending, ring.nextReceiving;
      skippedKeys, dropped := map[], {};
      pqStepInterval, dhStepsSincePq := DEFAULT_PQ_INTERVAL, 0;
      previousChainLength, sendingMessageNumber := 0, 0;
      totalMessagesSent, totalMessagesReceived := 0, 0;
    }

    method InitiatePqIfDue(coins: SendCoins) returns (r: Result<Option<KemData>>)
      requires Valid()
      modifies this, pqRatchet
      ensures Valid()
      ensures (Value(), r) == EncryptPq(suite, old(Value()), coins)
    {
      if pqStepInterval == 0 || dhStepsSincePq < pqStepInterval {
        return Ok(None);
      }
      var initiated := pqRatchet.InitiateStep(coins.kemCoins, coins.kemSecret);
      if initiated.Err? {
        return Err(initiated.error);
      }
      dhStepsSincePq := 0;
      r := Ok(Some(initiated.value));
    }

    method EncryptMessage(plaintext: Bytes, coins: SendCoins) returns (r: Result<Encrypted>)
      requires Valid()
      modifies this, dhRatchet.sendingChain, pqRatchet
      ensures Valid()
      ensures (Value(), r) == Encrypt(suite, old(Value()), plaintext, coins)
    {
      hide EncodeHeader, EncryptPq, EncryptKey, Wrap32;
      var kem := InitiatePqIfDue(coins);
      if kem.Err? {
        return Err(kem.error);
      }
      ghost var t1 := Value();
      var out := dhRatchet.EncryptMessageKey();
      assert Value() == t1.(dh := EncryptKey(suite, t1.dh).0);
      if out.Err? {
        return Err(out.error);
      }
      sendingMessageNumber := Wrap32(out.value.number + 1);
      var header := HeaderFor(out.value, previousChainLength, kem.value);
      var bytes := HeaderToBytes(header);
      var encryptedHeader := Seal(suite, sendingHeaderKey, coins.headerNonce, bytes, []);
      var body := Seal(suite, out.value.key, coins.bodyNonce, plaintext, encryptedHeader);
      totalMessagesSent := totalMessagesSent + 1;
      r := Ok(Encrypted(encryptedHeader, coins.headerNonce, body, coins.bodyNonce));
    }

    method StoreSkippedKey(publicKey: Bytes, number: nat, key: Bytes, victim: Cache -> Slot)
      requires Valid()
      modifies this
      ensures Valid()
      ensures Value() == Store(old(Value()), publicKey, number, key, victim)
    {
      if |skippedKeys| >= MAX_SKIPPED_KEYS {
        var first := victim(skippedKeys);
        skippedKeys := skippedKeys - {first};
        dropped := dropped + {first};
      }
      skippedKeys := skippedKeys[(publicKey, number) := Skipped(key, dhRatchet.stepCount)];
    }

    method StoreSkippedKeys(publicKey: Bytes, keys: Keys, victim: Cache -> Slot)
      requires Valid()
      modifies this
      ensures Valid()
      ensures Value() == StoreAll(old(Value()), publicKey, keys, victim)
    {
      for i := 0 to |keys|
        invariant Valid()
        invariant StoreAll(Value(), publicKey, keys[i..], victim) == StoreAll(old(Value()), publicKey, keys, victim)
      {
        StoreSkippedKey(publicKey, keys[i].0, keys[i].1, victim);
        assert keys[i..][1..] == keys[i + 1..];
      }
    }

    method PurgeSkippedKeysOlderThan(maxAge: nat)
      requires Valid()
      modifies this
      ensures Valid()
      ensures Value() == Purge(old(Value()), maxAge)
    {
      var expired := set slot | slot in skippedKeys && dhRatchet.stepCount - skippedKeys[slot].step > maxAge;
      skippedKeys := skippedKeys - expired;
      dropped := dropped + expired;
    }

    method OpenHeader(key: Bytes, m: Encrypted) returns (h: Option<Header>)
      ensures h == TryHeader(suite, key, m)
    {
      var bytes := Open(suite, key, m.headerNonce, m.header, []);
      if bytes.None? {
        return None;
      }
      var header := HeaderFromBytes(bytes.value);
      h := if header.Ok? then Some(header.value) else None;
    }

    method FindHeader(keys: seq<Bytes>, m: Encrypted) returns (header: Option<Header>)
      ensures header == FirstHeader(suite, keys, m)
    {
      header := None;
      var i := 0;
      while i < |keys| && header.None?
        invariant 0 <= i <= |keys|
        invariant FirstHeader(suite, keys, m) == if header.Some? then header else FirstHeader(suite, keys[i..], m)
      {
        header := OpenHeader(keys[i], m);
        assert keys[i..][1..] == keys[i + 1..];
        i := i + 1;
      }
    }

    method TrySkippedKeys(m: Encrypted) returns (r: Result<Option<Bytes>>)
      requires Valid()
      modifies this
      ensures Valid()
      ensures (Value(), r) == TrySkipped(suite, old(Value()), m)
    {
      if skippedKeys == map[] {
        return Ok(None);
      }
      var keys := [receivingHeaderKey, nextReceivingHeaderKey]
                  + (if previousReceivingHeaderKey.Some? then [previousReceivingHeaderKey.value] else [])
                  + retainedHeaderKeys;
      var header := FindHeader(keys, m);
      if header.None? {
        return Ok(None);
      }
      var slot := (header.value.dhPublic, header.value.number);
      if slot !in skippedKeys {
        return Ok(None);
      }
      var key := skippedKeys[slot].key;
      skippedKeys := skippedKeys - {slot};
      var plaintext := Open(suite, key, m.bodyNonce, m.body, m.header);
      if plaintext.None? {
        return Err(Aead);
      }
      totalMessagesReceived := totalMessagesReceived + 1;
      r := Ok(plaintext);
    }

    method DetectRatchet(m: Encrypted) returns (r: Result<(Header, bool)>)
      requires Valid()
      ensures r == Detect(suite, Value(), m)
    {
      var next := OpenHeader(nextReceivingHeaderKey, m);
      if next.Some? {
        return Ok((next.value, true));
      }
      var current := OpenHeader(receivingHeaderKey, m);
      if current.Some? {
        return Ok((current.value, dhRatchet.remotePublic != Some(current.value.dhPublic)));
      }
      if previousReceivingHeaderKey.Some? {
        var previous := OpenHeader(previousReceivingHeaderKey.value, m);
        if previous.Some? {
          return Ok((previous.value, false));
        }
      }
      r := Err(HeaderEncryption);
    }

    method SaveOldReceivingChain(header: Header, victim: Cache -> Slot) returns (r: Result<()>)
      requires Valid() && header.previousLength < U32
      modifies this, dhRatchet.receivingChain
      ensures Valid()
      ensures (Value(), r) == SaveOldChain(suite, old(Value()), header, victim)
    {
      if dhRatchet.remotePublic.None? {
        return Ok(());
      }
      var oldRemote := dhRatchet.remotePublic.value;
      var oldKeys := dhRatchet.SkipRemainingReceivingKeys(header.previousLength);
      if oldKeys.Err? {
        return Err(oldKeys.error);
      }
      StoreSkippedKeys(oldRemote, oldKeys.value, victim);
      r := Ok(());
    }

    method RotateHeaderKeys()
      requires Valid()
      modifies this
      ensures Valid()
      ensures Value() == old(Value()).(ring := RotateRing(old(Value()).ring))
    {
      if previousReceivingHeaderKey.Some? && |retainedHeaderKeys| < MAX_RETAINED_HEADER_KEYS {
        retainedHeaderKeys := retainedHeaderKeys + [previousReceivingHeaderKey.value];
      }
      previousReceivingHeaderKey := Some(receivingHeaderKey);
      receivingHeaderKey := nextReceivingHeaderKey;
      sendingHeaderKey := nextSendingHeaderKey;
    }

    method StepIntoEpoch(remote: Bytes, dhSecret: Bytes) returns (r: Result<()>)
      requires Valid()
      modifies this, dhRatchet
      ensures Valid()
      ensures dhRatchet.receivingChain == old(dhRatchet.receivingChain) || fresh(dhRatchet.receivingChain)
      ensures (Value(), r) == StepInto(suite, old(Value()), remote, dhSecret)
    {
      hide RotateRing, RatchetStep, Wrap32;
      RotateHeaderKeys();
      ghost var t1 := Value();
      var stepped := dhRatchet.Step(remote, dhSecret);
      assert Value() == t1.(dh := RatchetStep(suite, t1.dh, remote, dhSecret).0);
      if stepped.Err? {
        return Err(stepped.error);
      }
      StartEpoch(stepped.value);
      r := Ok(());
    }

    method StartEpoch(keys: HeaderKeys)
      requires Valid()
      modifies this
      ensures Valid()
      ensures var t := old(Value());
              Value() == t.(stepsSincePq := Wrap32(t.stepsSincePq + 1),
                            ring := t.ring.(nextReceiving := keys.receiving, nextSending := keys.sending),
                            previousLength := t.sendingNumber, sendingNumber := 0)
    {
      hide Wrap32;
      dhStepsSincePq := Wrap32(dhStepsSincePq + 1);
      nextReceivingHeaderKey := keys.receiving;
      nextSendingHeaderKey := keys.sending;
      previousChainLength := sendingMessageNumber;
      sendingMessageNumber := 0;
    }

    method EnterNewEpoch(header: Header, coins: ReceiveCoins) returns (r: Result<()>)
      requires Valid() && header.previousLength < U32
      modifies this, dhRatchet, dhRatchet.receivingChain
      ensures Valid()
      ensures dhRatchet.receivingChain == old(dhRatchet.receivingChain) || fresh(dhRatchet.receivingChain)
      ensures (Value(), r) == EnterEpoch(suite, old(Value()), header, coins)
    {
      var saved := SaveOldReceivingChain(header, coins.victim);
      if saved.Err? {
        return Err(saved.error);
      }
      r := StepIntoEpoch(header.dhPublic, coins.dhSecret);
    }

    method OpenBodyWithChain(header: Header, m: Encrypted, victim: Cache -> Slot) returns (r: Result<Bytes>)
      requires Valid() && header.number < U32
      modifies this, dhRatchet.receivingChain
      ensures Valid()
      ensures (Value(), r) == OpenBody(suite, old(Value()), header, m, victim)
    {
      hide StoreAll, Store, ReceiveKey;
      var received := dhRatchet.ReceiveMessageKey(header.number);
      if received.Err? {
        return Err(received.error);
      }
      StoreSkippedKeys(header.dhPublic, received.value.skipped, victim);
      var plaintext := Open(suite, received.value.key, m.bodyNonce, m.body, m.header);
      if plaintext.None? {
        return Err(Aead);
      }
      totalMessagesReceived := totalMessagesReceived + 1;
      r := Ok(plaintext.value);
    }

    method CompletePq(header: Header, coins: ReceiveCoins)
      requires Valid()
      modifies pqRatchet
      ensures Valid()
      ensures Value() == ReceivePq(suite, old(Value()), header, coins)
    {
      if header.kemCiphertext.Some? && header.kemPublic.Some? {
        pqRatchet.CompleteStep(KemData(header.kemCiphertext.value, header.kemPublic.value), coins.kemSecret);
      }
    }

    method DecryptMessage(m: Encrypted, coins: ReceiveCoins) returns (r: Result<Bytes>)
      requires Valid()
      modifies this, dhRatchet, dhRatchet.receivingChain, pqRatchet
      ensures Valid()
      ensures (Value(), r) == Decrypt(suite, old(Value()), m, coins)
    {
      var cached := TrySkippedKeys(m);
      if cached.Err? {
        return Err(cached.error);
      }
      if cached.value.Some? {
        return Ok(cached.value.value);
      }
      var detected := DetectRatchet(m);
      if detected.Err? {
        return Err(detected.error);
      }
      var (header, dhChanged) := detected.value;
      DetectedHeaderOk(suite, Value(), m);
      if dhChanged {
        var entered := EnterNewEpoch(header, coins);
        if entered.Err? {
          return Err(entered.error);
        }
      }
      CompletePq(header, coins);
      r := OpenBodyWithChain(header, m, coins.victim);
    }
  }
}
