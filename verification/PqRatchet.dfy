/** The post-quantum ratchet of one party, and two of them taking matched steps. */
module PqRatchet {
  import opened Wrappers
  import opened Bytes
  import opened Primitives

  /** The value of a `PqRatchetState`; a KEM key pair is its secret key. */
  datatype Pq = Pq(secret: Bytes, remote: Option<Bytes>, chainKey: Bytes, steps: nat)

  /** What the initiator sends: the ciphertext and its new public key. */
  datatype KemData = KemData(ciphertext: Bytes, publicKey: Bytes)

  function MixIn(s: Suite, p: Pq, shared: Bytes, newSecret: Bytes): (p': Pq) {
    p.(chainKey := Derive(s, p.chainKey, shared, PqChainInfo, KEY_SIZE), secret := newSecret,
       steps := Wrap32(p.steps + 1))
  }

  /** `initiate_step`, with the coins of the encapsulation and the generated pair as arguments. */
  function Initiate(s: Suite, p: Pq, coins: Bytes, newSecret: Bytes): (r: (Pq, Result<KemData>)) {
    match p.remote
    case None => (p, Err(Ratchet))
    case Some(remote) =>
      var (ciphertext, shared) := Encapsulate(s, remote, coins);
      (MixIn(s, p, shared, newSecret), Ok(KemData(ciphertext, KemPublicKey(s, newSecret))))
  }

  /** `complete_step`. ML-KEM decapsulation rejects implicitly, so it always yields a secret. */
  function Complete(s: Suite, p: Pq, data: KemData, newSecret: Bytes): (p': Pq) {
    MixIn(s, p, Decapsulate(s, p.secret, data.ciphertext), newSecret).(remote := Some(data.publicKey))
  }

  class PqRatchetState {
    const suite: Suite
    var kemSecret: Bytes
    var remoteKemPublic: Option<Bytes>
    var pqChainKey: Bytes
    var stepCounter: nat

    ghost function Value(): (p: Pq)
      reads this
    {
      Pq(kemSecret, remoteKemPublic, pqChainKey, stepCounter)
    }

    /** `with_keypair`, and `new` with the generated pair as an argument. */
    constructor (s: Suite, initialKey: Bytes, secret: Bytes)
      ensures suite == s && Value() == Pq(secret, None, initialKey, 0)
    {
      suite := s;
      kemSecret := secret;
      remoteKemPublic := None;
      pqChainKey := initialKey;
      stepCounter := 0;
    }

    method InitiateStep(coins: Bytes, newSecret: Bytes) returns (r: Result<KemData>)
      modifies this
      ensures (Value(), r) == Initiate(suite, old(Value()), coins, newSecret)
    {
      if remoteKemPublic.None? {
        return Err(Ratchet);
      }
      var (ciphertext, shared) := Encapsulate(suite, remoteKemPublic.value, coins);
      pqChainKey := Derive(suite, pqChainKey, shared, PqChainInfo, KEY_SIZE);
      kemSecret := newSecret;
      stepCounter := Wrap32(stepCounter + 1);
      r := Ok(KemData(ciphertext, KemPublicKey(suite, kemSecret)));
    }

    method CompleteStep(data: KemData, newSecret: Bytes)
      modifies this
      ensures Value() == Complete(suite, old(Value()), data, newSecret)
    {
      var shared := Decapsulate(suite, kemSecret, data.ciphertext);
      pqChainKey := Derive(suite, pqChainKey, shared, PqChainInfo, KEY_SIZE);
      remoteKemPublic := Some(data.publicKey);
      kemSecret := newSecret;
      stepCounter := Wrap32(stepCounter + 1);
    }

    method SetRemotePublicKey(publicKey: Bytes)
      modifies this
      ensures Value() == old(Value()).(remote := Some(publicKey))
    {
      remoteKemPublic := Some(publicKey);
    }
  }

  // ---------------------------------------------------------------
  // Matched steps between two parties
  // ---------------------------------------------------------------

  datatype Pair = Pair(alice: Pq, bob: Pq)

  datatype Event =
    | Step(fromAlice: bool, coins: Bytes, initiatorSecret: Bytes, responderSecret: Bytes)
    | Refresh(toAlice: bool) // the party learns the peer's current public key

  function Swap(w: Pair): (w': Pair) {
    Pair(w.bob, w.alice)
  }

  /** One matched step: Alice initiates, Bob completes with what she sent. */
  function StepFromAlice(s: Suite, w: Pair, coins: Bytes, initiatorSecret: Bytes, responderSecret: Bytes): (w': Pair) {
    var (alice, r) := Initiate(s, w.alice, coins, initiatorSecret);
    match r
    case Err(_) => Pair(alice, w.bob)
    case Ok(data) => Pair(alice, Complete(s, w.bob, data, responderSecret))
  }

  function Next(s: Suite, w: Pair, ev: Event): (w': Pair) {
    match ev
    case Step(true, coins, i, r) => StepFromAlice(s, w, coins, i, r)
    case Step(false, coins, i, r) => Swap(StepFromAlice(s, Swap(w), coins, i, r))
    case Refresh(true) => w.(alice := w.alice.(remote := Some(KemPublicKey(s, w.bob.secret))))
    case Refresh(false) => w.(bob := w.bob.(remote := Some(KemPublicKey(s, w.alice.secret))))
  }

  /** The party holds the peer's current public key. */
  predicate MayInitiate(s: Suite, w: Pair, alice: bool) {
    if alice then w.alice.remote == Some(KemPublicKey(s, w.bob.secret))
    else w.bob.remote == Some(KemPublicKey(s, w.alice.secret))
  }

  predicate InStep(w: Pair) {
    w.alice.chainKey == w.bob.chainKey && w.alice.steps == w.bob.steps
  }

  /** Every step of the run is initiated by a party that holds the peer's current key. */
  predicate GuardedRun(s: Suite, w: Pair, evs: seq<Event>)
    decreases |evs|
  {
    evs == [] || ((evs[0].Step? ==> MayInitiate(s, w, evs[0].fromAlice))
                  && GuardedRun(s, Next(s, w, evs[0]), evs[1..]))
  }

  function Run(s: Suite, w: Pair, evs: seq<Event>): (w': Pair)
    decreases |evs|
  {
    if evs == [] then w else Run(s, Next(s, w, evs[0]), evs[1..])
  }

  lemma StepAgrees(s: Suite, w: Pair, ev: Event)
    requires KemLaw(s) && InStep(w) && ev.Step? && MayInitiate(s, w, ev.fromAlice)
    ensures InStep(Next(s, w, ev)) && MayInitiate(s, Next(s, w, ev), !ev.fromAlice)
  {
    var initiator, responder := if ev.fromAlice then w.alice else w.bob, if ev.fromAlice then w.bob else w.alice;
    var (ciphertext, shared) := Encapsulate(s, KemPublicKey(s, responder.secret), ev.coins);
    assert Decapsulate(s, responder.secret, ciphertext) == shared;
  }

  /** PQ agreement: chain keys and step counters agree after every guarded run, refreshes anywhere. */
  lemma {:induction false} PqAgreement(s: Suite, w: Pair, evs: seq<Event>)
    requires KemLaw(s) && InStep(w) && GuardedRun(s, w, evs)
    ensures InStep(Run(s, w, evs))
    decreases |evs|
  {
    if evs == [] {
    } else {
      if evs[0].Step? {
        StepAgrees(s, w, evs[0]);
      }
      PqAgreement(s, Next(s, w, evs[0]), evs[1..]);
    }
  }

  /** Steps only, the parties taking turns, `alice` first. */
  predicate Alternating(evs: seq<Event>, alice: bool)
    decreases |evs|
  {
    evs == [] || (evs[0].Step? && evs[0].fromAlice == alice && Alternating(evs[1..], !alice))
  }

  /**
   * The responder of a step can always initiate the next one, so an alternating run needs no key
   * refresh at all, however long: it is guarded from its first step on, and so agrees throughout.
   */
  lemma {:induction false} AlternatingNeedsNoRefresh(s: Suite, w: Pair, evs: seq<Event>, alice: bool)
    requires KemLaw(s) && InStep(w) && MayInitiate(s, w, alice) && Alternating(evs, alice)
    ensures GuardedRun(s, w, evs) && InStep(Run(s, w, evs))
    ensures MayInitiate(s, Run(s, w, evs), alice == (|evs| % 2 == 0))
    decreases |evs|
  {
    if evs == [] {
    } else {
      StepAgrees(s, w, evs[0]);
      AlternatingNeedsNoRefresh(s, Next(s, w, evs[0]), evs[1..], !alice);
    }
  }

  /**
   * A party that initiates twice in a row is outdated the second time: it still holds the key the
   * peer replaced on completing, so it may initiate again exactly if the replacement collides.
   */
  lemma InitiatorIsOutdated(s: Suite, w: Pair, ev: Event)
    requires ev.Step? && MayInitiate(s, w, ev.fromAlice)
    ensures MayInitiate(s, Next(s, w, ev), ev.fromAlice)
       <==> KemPublicKey(s, ev.responderSecret) == KemPublicKey(s, (if ev.fromAlice then w.bob else w.alice).secret)
  {
  }

  // ---------------------------------------------------------------
  // What the chain key is made of
  // ---------------------------------------------------------------

  /** The initial chain key with one secret after the other mixed in. */
  function Mixed(s: Suite, initial: Bytes, secrets: seq<Bytes>): (key: Bytes) {
    if secrets == [] then initial else
      s.derive(Mixed(s, initial, secrets[..|secrets| - 1]), secrets[|secrets| - 1], PqChainInfo, 32)
  }

  /** The secret a step encapsulates to the key its initiator holds. */
  function StepSecret(s: Suite, w: Pair, ev: Event): (secrets: seq<Bytes>) {
    if !ev.Step? then [] else
      var remote := if ev.fromAlice then w.alice.remote else w.bob.remote;
      if remote.None? then [] else [s.encapsulate(remote.value, ev.coins).1]
  }

  function Secrets(s: Suite, w: Pair, evs: seq<Event>): (secrets: seq<Bytes>)
    decreases |evs|
  {
    if evs == [] then [] else StepSecret(s, w, evs[0]) + Secrets(s, Next(s, w, evs[0]), evs[1..])
  }

  lemma StepMixes(s: Suite, w: Pair, ev: Event, initial: Bytes, before: seq<Bytes>)
    requires KemLaw(s) && InStep(w) && (ev.Step? ==> MayInitiate(s, w, ev.fromAlice))
    requires w.alice.chainKey == Mixed(s, initial, before)
    ensures Next(s, w, ev).alice.chainKey == Mixed(s, initial, before + StepSecret(s, w, ev))
    ensures Next(s, w, ev).alice.steps == Wrap32(w.alice.steps + |StepSecret(s, w, ev)|) || !ev.Step?
  {
    if ev.Step? {
      StepAgrees(s, w, ev);
      var secrets := before + StepSecret(s, w, ev);
      assert secrets[..|before|] == before;
    } else {
      assert before + [] == before;
    }
  }

  /**
   * After every guarded run both chain keys are the initial one with every encapsulated secret mixed
   * in, in order.
   */
  lemma {:induction false} ChainKeyMixesAll(s: Suite, w: Pair, evs: seq<Event>, initial: Bytes, before: seq<Bytes>)
    requires KemLaw(s) && InStep(w) && GuardedRun(s, w, evs) && w.alice.chainKey == Mixed(s, initial, before)
    ensures var key := Mixed(s, initial, before + Secrets(s, w, evs));
            Run(s, w, evs).alice.chainKey == key && Run(s, w, evs).bob.chainKey == key
    decreases |evs|
  {
    hide Next, Mixed, StepSecret, KemLaw;
    if evs == [] {
      assert before + [] == before;
    } else {
      if evs[0].Step? {
        StepAgrees(s, w, evs[0]);
      } else {
        RefreshKeeps(s, w, evs[0]);
      }
      StepMixes(s, w, evs[0], initial, before);
      ChainKeyMixesAll(s, Next(s, w, evs[0]), evs[1..], initial, before + StepSecret(s, w, evs[0]));
      assert before + StepSecret(s, w, evs[0]) + Secrets(s, Next(s, w, evs[0]), evs[1..])
        == before + Secrets(s, w, evs);
    }
  }

  lemma RefreshKeeps(s: Suite, w: Pair, ev: Event)
    requires ev.Refresh? && InStep(w)
    ensures InStep(Next(s, w, ev))
  {
  }
}
