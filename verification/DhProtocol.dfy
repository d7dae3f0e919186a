/**
 * Two DH ratchets exchanging headers over a network that loses, duplicates and reorders them.
 * Key generation and the choice of the delivered header are inputs, so a run is a list of events.
 */
module DhProtocol {
  import opened Wrappers
  import opened Bytes
  import opened Primitives
  import opened SymmetricRatchet
  import opened DhRatchet
  import opened Schedule

  /** A header handed to the network, with the key its sender used and the epoch it was sent in. */
  datatype Sent = Sent(publicKey: Bytes, number: nat, key: Bytes, epoch: nat)

  /** A party: its ratchet, and as history its epoch and everything it ever sent. */
  datatype Party = Party(dh: Dh, epoch: nat, outbox: seq<Sent>)

  /** Both parties, the ratchet secrets and the sending header keys in the order they appeared. */
  datatype World = World(alice: Party, bob: Party, secrets: seq<Bytes>, headerKeys: seq<Bytes>) {
    function Of(side: Side): (p: Party) {
      if side == Alice then alice else bob
    }

    function With(side: Side, p: Party): (w: World) {
      if side == Alice then this.(alice := p) else this.(bob := p)
    }
  }

  datatype Event =
    | Send(from: Side)
    | Deliver(to: Side, index: nat, newSecret: Bytes) // the index-th header the peer ever sent

  /** Bob's pair is published; Alice starts the session with it. */
  function Start(s: Suite, root: Bytes, bobSecret: Bytes, aliceSecret: Bytes): (r: Result<World>)
    requires DeriveLaw(s)
  {
    match InitSender(s, root, PublicKey(s, bobSecret), aliceSecret)
    case Err(e) => Err(e)
    case Ok((alice, header)) =>
      Ok(World(Party(alice, 1, []), Party(InitReceiver(root, bobSecret), 0, []), [bobSecret, aliceSecret], [header]))
  }

  /** `encrypt_message_key`, and its header goes to the network. */
  function SendBy(s: Suite, p: Party): (p': Party) {
    var (d, r) := EncryptKey(s, p.dh);
    if r.Err? then p.(dh := d)
    else p.(dh := d, outbox := p.outbox + [Sent(r.value.publicKey, r.value.number, r.value.key, p.epoch)])
  }

  /** `decrypt_message_key` on a header; the party is two epochs further if it ratcheted. */
  function ReceiveBy(s: Suite, p: Party, m: Sent, newSecret: Bytes): (p': Party)
    requires DeriveLaw(s)
  {
    p.(dh := DecryptKey(s, p.dh, m.publicKey, m.number, newSecret).0,
       epoch := if Ratchets(s, p, m, newSecret) then p.epoch + 2 else p.epoch)
  }

  predicate Ratchets(s: Suite, p: Party, m: Sent, newSecret: Bytes)
    requires DeriveLaw(s)
  {
    p.dh.remote != Some(m.publicKey) && RatchetStep(s, p.dh, m.publicKey, newSecret).1.Ok?
  }

  function Next(s: Suite, w: World, ev: Event): (w': World)
    requires DeriveLaw(s)
  {
    match ev
    case Send(from) => w.With(from, SendBy(s, w.Of(from)))
    case Deliver(to, index, newSecret) =>
      if index >= |w.Of(Peer(to)).outbox| then w else
        var p, m := w.Of(to), w.Of(Peer(to)).outbox[index];
        var w1 := w.With(to, ReceiveBy(s, p, m, newSecret));
        if !Ratchets(s, p, m, newSecret) then w1
        else
          var sending := RatchetStep(s, p.dh, m.publicKey, newSecret).1.value.sending;
          w1.(secrets := w.secrets + [newSecret], headerKeys := w.headerKeys + [sending])
  }

  /** A header from an epoch the receiver has already ratcheted past. */
  predicate Stale(p: Party, m: Sent) {
    m.epoch + 1 < p.epoch
  }

  /**
   * What the environment owes the parties: a chain never carries 2^32 - 1 messages, a delivered
   * header was sent by the peer and is not stale, and a generated key pair is new.
   */
  predicate Allowed(s: Suite, w: World, ev: Event) {
    match ev
    case Send(from) => SentCount(w.Of(from).dh) + 1 < U32
    case Deliver(to, index, newSecret) =>
      && index < |w.Of(Peer(to)).outbox|
      && !Stale(w.Of(to), w.Of(Peer(to)).outbox[index])
      && FreshSecret(s, w.secrets, newSecret)
  }

  ghost predicate AllowedRun(s: Suite, w: World, evs: seq<Event>)
    requires DeriveLaw(s)
    decreases |evs|
  {
    evs == [] || (Allowed(s, w, evs[0]) && AllowedRun(s, Next(s, w, evs[0]), evs[1..]))
  }

  ghost function Run(s: Suite, w: World, evs: seq<Event>): (w': World)
    requires DeriveLaw(s)
    decreases |evs|
  {
    if evs == [] then w else Run(s, Next(s, w, evs[0]), evs[1..])
  }

  // ---------------------------------------------------------------
  // The joint invariant
  // ---------------------------------------------------------------

  /** A message carries the key of its epoch's chain at its number. */
  ghost predicate Genuine(s: Suite, root: Bytes, secrets: seq<Bytes>, m: Sent)
    requires DhLaw(s) && DeriveLaw(s)
  {
    && 0 < m.epoch < |secrets|
    && m.publicKey == PublicKey(s, secrets[m.epoch])
    && m.number + 1 < U32
    && m.key == KeyAt(s, Seed(s, root, secrets, m.epoch), m.number)
  }

  /** The party follows the schedule, and all it sent is genuine and of its own epochs. */
  ghost predicate PartyOk(s: Suite, root: Bytes, secrets: seq<Bytes>, p: Party)
    requires DhLaw(s) && DeriveLaw(s)
  {
    && DhAt(s, root, secrets, p.dh, p.epoch)
    && (forall m :: m in p.outbox ==>
          Genuine(s, root, secrets, m) && m.epoch <= p.epoch && m.epoch % 2 == p.epoch % 2)
  }

  ghost predicate HeaderKeysOk(s: Suite, root: Bytes, secrets: seq<Bytes>, headerKeys: seq<Bytes>)
    requires DhLaw(s) && DeriveLaw(s)
  {
    && |headerKeys| + 1 == |secrets|
    && (forall j :: 0 < j < |secrets| ==> headerKeys[j - 1] == Output(s, root, secrets, j).header)
  }

  ghost predicate Inv(s: Suite, root: Bytes, w: World)
    requires DhLaw(s) && DeriveLaw(s)
  {
    && Neighbours(w.alice.epoch, w.bob.epoch, |w.secrets|)
    && DistinctPublics(s, w.secrets)
    && PartyOk(s, root, w.secrets, w.alice)
    && PartyOk(s, root, w.secrets, w.bob)
    && HeaderKeysOk(s, root, w.secrets, w.headerKeys)
  }

  lemma StartInv(s: Suite, root: Bytes, bobSecret: Bytes, aliceSecret: Bytes)
    requires DhLaw(s) && DeriveLaw(s)
    requires PublicKey(s, bobSecret) != PublicKey(s, aliceSecret)
    ensures var r := Start(s, root, bobSecret, aliceSecret);
            r.Ok? && Inv(s, root, r.value)
  {
    InitAt(s, root, bobSecret, aliceSecret);
  }

  lemma PartyStable(s: Suite, root: Bytes, secrets: seq<Bytes>, x: Bytes, p: Party)
    requires DhLaw(s) && DeriveLaw(s) && PartyOk(s, root, secrets, p)
    ensures PartyOk(s, root, secrets + [x], p)
  {
    DhAtStable(s, root, secrets, x, p.dh, p.epoch);
    forall m | m in p.outbox ensures Genuine(s, root, secrets + [x], m) {
      OutputStable(s, root, secrets, x, m.epoch);
    }
  }

  lemma SendPartyOk(s: Suite, root: Bytes, secrets: seq<Bytes>, p: Party)
    requires DhLaw(s) && DeriveLaw(s) && PartyOk(s, root, secrets, p)
    requires SentCount(p.dh) + 1 < U32
    ensures PartyOk(s, root, secrets, SendBy(s, p)) && SendBy(s, p).epoch == p.epoch
  {
    if p.dh.send.Some? {
      var seed, n := Seed(s, root, secrets, p.epoch), SentCount(p.dh);
      assert Advanced(s, At(s, seed, n)) == At(s, seed, n + 1);
    }
  }

  /** Headers the peer may have sent, told apart: a new epoch, the current one, or a stale one. */
  lemma DeliveredEpoch(s: Suite, root: Bytes, w: World, to: Side, m: Sent)
    requires DhLaw(s) && DeriveLaw(s) && Inv(s, root, w)
    requires m in w.Of(Peer(to)).outbox
    ensures Genuine(s, root, w.secrets, m)
    ensures !Stale(w.Of(to), m) ==> m.epoch == w.Of(to).epoch + 1 || m.epoch + 1 == w.Of(to).epoch
    ensures w.Of(to).dh.remote == Some(m.publicKey) <==> m.epoch + 1 == w.Of(to).epoch
    ensures m.epoch == w.Of(to).epoch + 1 ==> |w.secrets| == w.Of(to).epoch + 2
  {
    hide HeaderKeysOk, Output, KeyAt, At;
    var j := w.Of(to).epoch;
    if 0 < j && m.epoch != j - 1 {
      var lo, hi := if m.epoch < j - 1 then m.epoch else j - 1, if m.epoch < j - 1 then j - 1 else m.epoch;
      assert PublicKey(s, w.secrets[lo]) != PublicKey(s, w.secrets[hi]);
    }
  }

  /** A party that receives the peer's next epoch follows the extended schedule. */
  lemma RatchetPartyOk(s: Suite, root: Bytes, secrets: seq<Bytes>, headerKeys: seq<Bytes>,
                       p: Party, m: Sent, newSecret: Bytes)
    requires DhLaw(s) && DeriveLaw(s) && PartyOk(s, root, secrets, p) && HeaderKeysOk(s, root, secrets, headerKeys)
    requires |secrets| == p.epoch + 2 && Genuine(s, root, secrets, m) && m.epoch == p.epoch + 1
    requires p.dh.remote != Some(m.publicKey)
    ensures Ratchets(s, p, m, newSecret) && ReceiveBy(s, p, m, newSecret).epoch == p.epoch + 2
    ensures PartyOk(s, root, secrets + [newSecret], ReceiveBy(s, p, m, newSecret))
    ensures var h := RatchetStep(s, p.dh, m.publicKey, newSecret).1.value;
            && h.receiving == headerKeys[|headerKeys| - 1]
            && HeaderKeysOk(s, root, secrets + [newSecret], headerKeys + [h.sending])
  {
    hide Output, RatchetStep, DecryptKey, Segment, DhAt, Genuine, HeaderKeysOk;
    NextKeyIsPublic(s, root, secrets, p, m);
    StepAt(s, root, secrets, p.dh, p.epoch, newSecret);
    DecryptNext(s, root, secrets, p.dh, p.epoch, m.number, newSecret);
    PartyStable(s, root, secrets, newSecret, p);
    var h := RatchetStep(s, p.dh, m.publicKey, newSecret).1.value;
    HeaderKeysExtend(s, root, secrets, headerKeys, newSecret);
    assert PartyOk(s, root, secrets + [newSecret], ReceiveBy(s, p, m, newSecret));
  }

  lemma NextKeyIsPublic(s: Suite, root: Bytes, secrets: seq<Bytes>, p: Party, m: Sent)
    requires DhLaw(s) && DeriveLaw(s) && Genuine(s, root, secrets, m) && m.epoch == p.epoch + 1
    ensures p.epoch + 1 < |secrets| && m.publicKey == PublicKey(s, secrets[p.epoch + 1]) && m.number + 1 < U32
  {
  }

  /** One more derivation, one more header key; the last one before it was derived from the old secrets. */
  lemma HeaderKeysExtend(s: Suite, root: Bytes, secrets: seq<Bytes>, headerKeys: seq<Bytes>, newSecret: Bytes)
    requires DhLaw(s) && DeriveLaw(s) && HeaderKeysOk(s, root, secrets, headerKeys) && 2 <= |secrets|
    ensures var secrets' := secrets + [newSecret];
            && headerKeys[|headerKeys| - 1] == Output(s, root, secrets', |secrets| - 1).header
            && HeaderKeysOk(s, root, secrets', headerKeys + [Output(s, root, secrets', |secrets|).header])
  {
    hide Output;
    forall j | 0 < j < |secrets|
      ensures Output(s, root, secrets + [newSecret], j) == Output(s, root, secrets, j)
    {
      OutputStable(s, root, secrets, newSecret, j);
    }
  }

  /** A party that receives a header of the epoch it is already receiving stays in its epoch. */
  lemma CurrentPartyOk(s: Suite, root: Bytes, secrets: seq<Bytes>, p: Party, m: Sent, newSecret: Bytes)
    requires DhLaw(s) && DeriveLaw(s) && PartyOk(s, root, secrets, p)
    requires Genuine(s, root, secrets, m) && m.epoch + 1 == p.epoch
    ensures PartyOk(s, root, secrets, ReceiveBy(s, p, m, newSecret))
    ensures !Ratchets(s, p, m, newSecret) && ReceiveBy(s, p, m, newSecret).epoch == p.epoch
  {
    DecryptCurrent(s, root, secrets, p.dh, p.epoch, m.number, newSecret);
  }

  /** The invariant, put together after one party changed. */
  lemma InvWith(s: Suite, root: Bytes, w: World, to: Side, p: Party, secrets: seq<Bytes>, headerKeys: seq<Bytes>)
    requires DhLaw(s) && DeriveLaw(s)
    requires PartyOk(s, root, secrets, p) && PartyOk(s, root, secrets, w.Of(Peer(to)))
    requires DistinctPublics(s, secrets) && HeaderKeysOk(s, root, secrets, headerKeys)
    requires Neighbours(w.With(to, p).alice.epoch, w.With(to, p).bob.epoch, |secrets|)
    ensures Inv(s, root, w.With(to, p).(secrets := secrets, headerKeys := headerKeys))
  {
  }

  lemma NextDelivered(s: Suite, w: World, to: Side, index: nat, newSecret: Bytes)
    requires DeriveLaw(s) && index < |w.Of(Peer(to)).outbox|
    ensures var p, m := w.Of(to), w.Of(Peer(to)).outbox[index];
            var w1 := w.With(to, ReceiveBy(s, p, m, newSecret));
            Next(s, w, Deliver(to, index, newSecret))
            == if Ratchets(s, p, m, newSecret)
               then var sending := RatchetStep(s, p.dh, m.publicKey, newSecret).1.value.sending;
                    w1.(secrets := w.secrets + [newSecret], headerKeys := w.headerKeys + [sending])
               else w1.(secrets := w.secrets, headerKeys := w.headerKeys)
  {
  }

  lemma DeliverCurrentInv(s: Suite, root: Bytes, w: World, to: Side, index: nat, newSecret: Bytes)
    requires DhLaw(s) && DeriveLaw(s) && Inv(s, root, w)
    requires index < |w.Of(Peer(to)).outbox| && w.Of(Peer(to)).outbox[index].epoch + 1 == w.Of(to).epoch
    ensures Inv(s, root, Next(s, w, Deliver(to, index, newSecret)))
  {
    var p, m := w.Of(to), w.Of(Peer(to)).outbox[index];
    DeliveredEpoch(s, root, w, to, m);
    CurrentPartyOk(s, root, w.secrets, p, m, newSecret);
    NextDelivered(s, w, to, index, newSecret);
    InvWith(s, root, w, to, ReceiveBy(s, p, m, newSecret), w.secrets, w.headerKeys);
  }

  lemma DeliverNextInv(s: Suite, root: Bytes, w: World, to: Side, index: nat, newSecret: Bytes)
    requires DhLaw(s) && DeriveLaw(s) && Inv(s, root, w) && FreshSecret(s, w.secrets, newSecret)
    requires index < |w.Of(Peer(to)).outbox| && w.Of(Peer(to)).outbox[index].epoch == w.Of(to).epoch + 1
    ensures Inv(s, root, Next(s, w, Deliver(to, index, newSecret)))
  {
    hide Next, RatchetStep, DecryptKey, HeaderKeysOk, DhAt, Genuine;
    var p, m := w.Of(to), w.Of(Peer(to)).outbox[index];
    DeliveredEpoch(s, root, w, to, m);
    RatchetPartyOk(s, root, w.secrets, w.headerKeys, p, m, newSecret);
    PartyStable(s, root, w.secrets, newSecret, w.Of(Peer(to)));
    DistinctExtended(s, w.secrets, newSecret);
    NeighboursSwap(w.alice.epoch, w.bob.epoch, |w.secrets|);
    var sending := RatchetStep(s, p.dh, m.publicKey, newSecret).1.value.sending;
    NextDelivered(s, w, to, index, newSecret);
    InvWith(s, root, w, to, ReceiveBy(s, p, m, newSecret), w.secrets + [newSecret], w.headerKeys + [sending]);
  }

  lemma {:induction false} RunInv(s: Suite, root: Bytes, w: World, evs: seq<Event>)
    requires DhLaw(s) && DeriveLaw(s) && Inv(s, root, w) && AllowedRun(s, w, evs)
    ensures Inv(s, root, Run(s, w, evs))
    decreases |evs|
  {
    if evs == [] {
    } else {
      match evs[0] {
        case Send(from) => SendPartyOk(s, root, w.secrets, w.Of(from));
        case Deliver(to, index, newSecret) =>
          DeliveredEpoch(s, root, w, to, w.Of(Peer(to)).outbox[index]);
          if w.Of(Peer(to)).outbox[index].epoch + 1 == w.Of(to).epoch {
            DeliverCurrentInv(s, root, w, to, index, newSecret);
          } else {
            DeliverNextInv(s, root, w, to, index, newSecret);
          }
      }
      RunInv(s, root, Next(s, w, evs[0]), evs[1..]);
    }
  }

  /** A state some allowed run from `init_sender` and `init_receiver` with one root key leads to. */
  ghost predicate Reachable(s: Suite, root: Bytes, w: World)
    requires DeriveLaw(s)
  {
    exists bobSecret: Bytes, aliceSecret: Bytes, evs: seq<Event> ::
      && PublicKey(s, bobSecret) != PublicKey(s, aliceSecret)
      && Start(s, root, bobSecret, aliceSecret).Ok?
      && AllowedRun(s, Start(s, root, bobSecret, aliceSecret).value, evs)
      && w == Run(s, Start(s, root, bobSecret, aliceSecret).value, evs)
  }

  lemma ReachableInv(s: Suite, root: Bytes, w: World)
    requires DhLaw(s) && DeriveLaw(s) && Reachable(s, root, w)
    ensures Inv(s, root, w)
  {
    var bobSecret: Bytes, aliceSecret: Bytes, evs: seq<Event> :|
      && PublicKey(s, bobSecret) != PublicKey(s, aliceSecret)
      && Start(s, root, bobSecret, aliceSecret).Ok?
      && AllowedRun(s, Start(s, root, bobSecret, aliceSecret).value, evs)
      && w == Run(s, Start(s, root, bobSecret, aliceSecret).value, evs);
    StartInv(s, root, bobSecret, aliceSecret);
    RunInv(s, root, Start(s, root, bobSecret, aliceSecret).value, evs);
  }

  // ---------------------------------------------------------------
  // Main results
  // ---------------------------------------------------------------

  /** Where the receiver's chain for this header stands: at zero if the header opens a new epoch. */
  function Position(p: Party, m: Sent): (n: nat) {
    if p.dh.remote == Some(m.publicKey) then ReceivedCount(p.dh) else 0
  }

  /** Every numbered key agrees with the key the sender used for that number of that epoch. */
  ghost predicate KeysAgree(outbox: seq<Sent>, epoch: nat, keys: Keys) {
    forall i, m | 0 <= i < |keys| && m in outbox ::
      m.epoch == epoch && m.number == keys[i].0 ==> m.key == keys[i].1
  }

  /**
   * Ratchet agreement. In any reachable state, delivering any header the peer ever sent, unless
   * stale, gives the receiver exactly the key its sender used, and every key it steps over is the
   * key the sender used for that number of that epoch. The delivery succeeds exactly when the
   * number is not yet consumed and not MAX_SKIP or more ahead.
   */
  lemma Agreement(s: Suite, root: Bytes, w: World, to: Side, index: nat, newSecret: Bytes)
    requires DhLaw(s) && DeriveLaw(s) && Reachable(s, root, w)
    requires Allowed(s, w, Deliver(to, index, newSecret))
    ensures var p, outbox := w.Of(to), w.Of(Peer(to)).outbox;
            var m := outbox[index];
            var r := DecryptKey(s, p.dh, m.publicKey, m.number, newSecret).1;
            && (r.Ok? <==> Position(p, m) <= m.number < Position(p, m) + MAX_SKIP)
            && (r.Ok? ==> r.value.key == m.key && KeysAgree(outbox, m.epoch, r.value.skipped))
  {
    ReachableInv(s, root, w);
    var p, peer := w.Of(to), w.Of(Peer(to));
    var m := peer.outbox[index];
    DeliveredEpoch(s, root, w, to, m);
    PartyAgreement(s, root, w.secrets, p, m, newSecret);
    if Position(p, m) <= m.number {
      SegmentAgrees(s, root, w.secrets, peer, m.epoch, Position(p, m), m.number);
    }
  }

  lemma PartyAgreement(s: Suite, root: Bytes, secrets: seq<Bytes>, p: Party, m: Sent, newSecret: Bytes)
    requires DhLaw(s) && DeriveLaw(s) && PartyOk(s, root, secrets, p) && Genuine(s, root, secrets, m)
    requires m.epoch + 1 == p.epoch
          || (m.epoch == p.epoch + 1 && |secrets| == p.epoch + 2 && p.dh.remote != Some(m.publicKey))
    ensures var n, seed := Position(p, m), Seed(s, root, secrets, m.epoch);
            DecryptKey(s, p.dh, m.publicKey, m.number, newSecret).1
            == if n <= m.number < n + MAX_SKIP then Ok(Incoming(m.key, Segment(s, seed, n, m.number))) else Err(Ratchet)
  {
    if m.epoch + 1 == p.epoch {
      DecryptCurrent(s, root, secrets, p.dh, p.epoch, m.number, newSecret);
    } else {
      DecryptNext(s, root, secrets, p.dh, p.epoch, m.number, newSecret);
    }
  }

  lemma SegmentAgrees(s: Suite, root: Bytes, secrets: seq<Bytes>, p: Party, epoch: nat, lo: nat, hi: nat)
    requires DhLaw(s) && DeriveLaw(s) && PartyOk(s, root, secrets, p)
    requires 0 < epoch < |secrets| && lo <= hi
    ensures KeysAgree(p.outbox, epoch, Segment(s, Seed(s, root, secrets, epoch), lo, hi))
  {
  }

  /**
   * Ratchet lock-step. In every reachable state exactly one party is ahead, by one epoch: its
   * root key is the derivation of the other's root key with their shared secret. Bob has stepped
   * as often as Alice or once more.
   */
  lemma LockStep(s: Suite, root: Bytes, w: World)
    requires DhLaw(s) && DeriveLaw(s) && Reachable(s, root, w)
    ensures var bobAhead := w.alice.epoch < w.bob.epoch;
            var (ahead, behind) := if bobAhead then (w.bob, w.alice) else (w.alice, w.bob);
            && ahead.epoch == behind.epoch + 1
            && ahead.dh.remote == Some(PublicKey(s, behind.dh.secret))
            && var shared := SharedSecret(s, behind.dh.secret, PublicKey(s, ahead.dh.secret));
            && shared.Some? && ahead.dh.root == RootKdf(s, behind.dh.root, shared.value).root
            && w.alice.dh.steps == Wrap32(w.alice.epoch / 2) && w.bob.dh.steps == Wrap32(w.bob.epoch / 2)
            && 0 <= w.bob.epoch / 2 - w.alice.epoch / 2 <= 1
  {
    ReachableInv(s, root, w);
  }

  /**
   * Header keys. Whenever an allowed delivery makes a party ratchet, the receiving header key it
   * derives is the sending header key the peer derived when it opened that epoch.
   */
  lemma HeaderKeysMatch(s: Suite, root: Bytes, w: World, to: Side, index: nat, newSecret: Bytes)
    requires DhLaw(s) && DeriveLaw(s) && Reachable(s, root, w)
    requires Allowed(s, w, Deliver(to, index, newSecret))
    requires w.Of(to).dh.remote != Some(w.Of(Peer(to)).outbox[index].publicKey)
    ensures var r := RatchetStep(s, w.Of(to).dh, w.Of(Peer(to)).outbox[index].publicKey, newSecret).1;
            r.Ok? && w.headerKeys != [] && r.value.receiving == w.headerKeys[|w.headerKeys| - 1]
  {
    hide RatchetStep, Output, DistinctPublics, KeyAt;
    ReachableInv(s, root, w);
    var p, m := w.Of(to), w.Of(Peer(to)).outbox[index];
    DeliveredEpoch(s, root, w, to, m);
    RatchetPartyOk(s, root, w.secrets, w.headerKeys, p, m, newSecret);
  }

  /** The chain a ratchet reads after stepping onto an old key: no chain of the shared schedule. */
  function StrayChain(s: Suite, d: Dh, publicKey: Bytes): (seed: Bytes)
    requires DeriveLaw(s) && SharedSecret(s, d.secret, publicKey).Some?
  {
    RootKdf(s, d.root, SharedSecret(s, d.secret, publicKey).value).chain
  }

  /**
   * Why stale headers are excluded: `decrypt_message_key` tells epochs apart only by comparing
   * with the current remote key, so in every reachable state a header from an epoch already left
   * makes it ratchet again, back onto the old remote key. The key it hands out is read off a chain
   * derived from the current root and the old key, whatever key the sender used.
   */
  lemma StaleHeaderRatchets(s: Suite, root: Bytes, w: World, to: Side, index: nat, newSecret: Bytes)
    requires DhLaw(s) && DeriveLaw(s) && Reachable(s, root, w)
    requires index < |w.Of(Peer(to)).outbox| && Stale(w.Of(to), w.Of(Peer(to)).outbox[index])
    ensures var p, m := w.Of(to), w.Of(Peer(to)).outbox[index];
            var (d', r) := DecryptKey(s, p.dh, m.publicKey, m.number, newSecret);
            && Ratchets(s, p, m, newSecret) && SharedSecret(s, p.dh.secret, m.publicKey).Some?
            && d'.remote == Some(m.publicKey) != p.dh.remote && d'.steps == Wrap32(p.dh.steps + 1)
            && (r.Ok? <==> m.number < MAX_SKIP)
            && (r.Ok? ==> r.value.key == KeyAt(s, StrayChain(s, p.dh, m.publicKey), m.number))
  {
    hide DecryptKey, RatchetStep, HeaderKeysOk, DistinctPublics, Reachable, StrayChain, KeyAt;
    ReachableInv(s, root, w);
    var m := w.Of(Peer(to)).outbox[index];
    DeliveredEpoch(s, root, w, to, m);
    ForeignKeyRatchets(s, w.Of(to).dh, w.secrets[m.epoch], m.number, newSecret);
  }

  /** And it does not end there: every header of the epoch being received then makes it ratchet once more. */
  lemma StaleHeaderLasts(s: Suite, root: Bytes, w: World, to: Side, index: nat, newSecret: Bytes, m': Sent,
                         another: Bytes)
    requires DhLaw(s) && DeriveLaw(s) && Reachable(s, root, w)
    requires index < |w.Of(Peer(to)).outbox| && Stale(w.Of(to), w.Of(Peer(to)).outbox[index])
    requires m' in w.Of(Peer(to)).outbox && m'.epoch + 1 == w.Of(to).epoch
    ensures Ratchets(s, ReceiveBy(s, w.Of(to), w.Of(Peer(to)).outbox[index], newSecret), m', another)
  {
    hide DecryptKey, RatchetStep, HeaderKeysOk, DistinctPublics, Reachable, StrayChain, KeyAt;
    ReachableInv(s, root, w);
    var p, m := w.Of(to), w.Of(Peer(to)).outbox[index];
    DeliveredEpoch(s, root, w, to, m');
    StaleHeaderRatchets(s, root, w, to, index, newSecret);
    ForeignKeyRatchets(s, ReceiveBy(s, p, m, newSecret).dh, w.secrets[m'.epoch], m'.number, another);
  }

  /** Any genuine public key other than the current remote one makes the ratchet step onto it. */
  lemma ForeignKeyRatchets(s: Suite, d: Dh, peerSecret: Bytes, number: nat, newSecret: Bytes)
    requires DhLaw(s) && DeriveLaw(s) && d.remote != Some(PublicKey(s, peerSecret)) && number + 1 < U32
    ensures RatchetStep(s, d, PublicKey(s, peerSecret), newSecret).1.Ok?
    ensures var (d', r) := DecryptKey(s, d, PublicKey(s, peerSecret), number, newSecret);
            && d'.remote == Some(PublicKey(s, peerSecret)) && d'.steps == Wrap32(d.steps + 1)
            && (r.Ok? <==> number < MAX_SKIP)
            && (r.Ok? ==> r.value.key == KeyAt(s, StrayChain(s, d, PublicKey(s, peerSecret)), number))
  {
    var d1 := RatchetStep(s, d, PublicKey(s, peerSecret), newSecret).0;
    ReceiveKeyMeaning(s, d1, StrayChain(s, d, PublicKey(s, peerSecret)), 0, number);
  }
}
