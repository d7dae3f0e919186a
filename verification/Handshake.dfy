/** From the key exchange to a running session. */
module Handshake {
  import opened Wrappers
  import opened Bytes
  import opened Primitives
  import opened PreKeys
  import opened KeyExchange
  import opened TripleRatchet
  import opened TripleDelivery
  import opened TripleProtocol

  /** The sender's session, from the bundle bytes it received (`handle_bundle_response`). */
  function SenderSession(s: Suite, secret: Bytes, bundleBytes: Bytes, dhSecret: Bytes,
                         kemSecret: Bytes): (r: Result<Triple>)
    requires DeriveLaw(s)
  {
    match DecodeMessage(s, bundleBytes)
    case Err(e) => Err(e)
    case Ok(m) =>
      if !m.BundleMessage? then Err(Serialization)
      else InitTripleSender(s, secret, m.bundle.signed.publicKey, m.bundle.kem.publicKey, dhSecret, kemSecret)
  }

  /** The receiver's session, from its own pre-keys (`handle_init_message`). */
  function ReceiverSession(s: Suite, secret: Bytes, k: PreKeySecrets): (t: Triple)
    requires DeriveLaw(s)
  {
    InitTripleReceiver(s, secret, k.signedSecret, k.kemSecret)
  }

  /**
   * End to end: whatever identities and pre-keys, the key exchange over the wire leaves both sides
   * with sessions that are exactly a starting state of the session protocol, so every guarantee
   * about reachable states holds for them.
   */
  lemma SessionFromHandshake(s: Suite, alice: IdentityKeys, k: PreKeySecrets, ephemeral: Bytes, coins: Bytes,
                             aliceDh: Bytes, aliceKem: Bytes)
    requires Lawful(s) && SecretsOk(k)
    ensures var bundleBytes := EncodeMessage(BundleMessage(Publish(s, k)));
            var sent := SenderOnWire(s, alice, bundleBytes, ephemeral, coins);
            && sent.Ok? && ReceiverOnWire(s, k, sent.value.1).Ok?
            && var setup := Setup(k.signedSecret, k.kemSecret, aliceDh, aliceKem);
               var mine := SenderSession(s, sent.value.0, bundleBytes, aliceDh, aliceKem);
               var theirs := ReceiverSession(s, ReceiverOnWire(s, k, sent.value.1).value, k);
               GoodSetup(s, sent.value.0, setup) ==>
                 && mine.Ok? && Start(s, sent.value.0, setup).Ok?
                 && var w := Start(s, sent.value.0, setup).value;
                    w.alice.t == mine.value && w.bob.t == theirs && Inv(w) && Reachable(s, w)
  {
    hide Inv, EncodeMessage, DecodeMessage, InitTripleSender, InitTripleReceiver, SenderOnWire, ReceiverOnWire;
    var b := Publish(s, k);
    PublishedOk(s, k);
    MessageRoundTrip(s, BundleMessage(b), []);
    var bundleBytes := EncodeMessage(BundleMessage(b));
    assert bundleBytes + [] == bundleBytes;
    SameSecret(s, alice, k, ephemeral, coins);
    var secret := SenderOnWire(s, alice, bundleBytes, ephemeral, coins).value.0;
    var setup := Setup(k.signedSecret, k.kemSecret, aliceDh, aliceKem);
    if GoodSetup(s, secret, setup) {
      StartInv(s, secret, setup);
      StartReachable(s, secret, setup);
    }
  }

  lemma StartReachable(s: Suite, shared: Bytes, setup: Setup)
    requires Laws(s) && GoodSetup(s, shared, setup) && Start(s, shared, setup).Ok?
    ensures Reachable(s, Start(s, shared, setup).value)
  {
    hide Start, GoodSetup;
    assert ReachableBy(s, shared, setup, [], Start(s, shared, setup).value);
  }
}
