/** The X3DH key exchange with its KEM extension, and its messages on the wire. */
module KeyExchange {
  import opened Wrappers
  import opened Bytes
  import opened Primitives
  import opened PreKeys

  const IKM_SIZE: nat := 160
  const INIT_MIN_LEN: nat := IDENTITY_PUBLIC_LEN + KEY_SIZE + 4 + 1 + 4 + 4

  /** A long-term identity: signing secret and X25519 secret. */
  datatype IdentityKeys = IdentityKeys(signing: Bytes, dh: Bytes)

  /** The secrets behind a published bundle. */
  datatype PreKeySecrets = PreKeySecrets(
    identity: IdentityKeys,
    signedId: nat,
    signedSecret: Bytes,
    timestamp: nat,
    kemId: nat,
    kemSecret: Bytes,
    oneTime: Option<(nat, Bytes)>
  )

  datatype Init = Init(
    sender: IdentityPublic,
    ephemeral: Bytes,
    kemCiphertext: Bytes,
    oneTimeId: Option<nat>,
    signedId: nat,
    kemId: nat
  )

  // ---------------------------------------------------------------
  // The two halves
  // ---------------------------------------------------------------

  function PublicIdentity(s: Suite, k: IdentityKeys): (i: IdentityPublic) {
    IdentityPublic(VerifyingKey(s, k.signing), PublicKey(s, k.dh))
  }

  /** `to_public` of every pre-key, signed as `generate` signs them. */
  function Publish(s: Suite, k: PreKeySecrets): (b: Bundle) {
    var signed, kem := PublicKey(s, k.signedSecret), KemPublicKey(s, k.kemSecret);
    Bundle(
      PublicIdentity(s, k.identity),
      SignedPublic(k.signedId, signed, Sign(s, k.identity.signing, signed), k.timestamp),
      KemPublic(k.kemId, kem, Sign(s, k.identity.signing, kem)),
      if k.oneTime.Some? then Some(OneTimePublic(k.oneTime.value.0, PublicKey(s, k.oneTime.value.1))) else None)
  }

  /** The secret both sides derive from the concatenated inputs. */
  function SecretFrom(s: Suite, ikm: Bytes): (r: Bytes) {
    Derive(s, Zeros(KEY_SIZE), ikm, X3dhInfo, KEY_SIZE)
  }

  /** DH1 || DH2 || DH3 || [DH4] || KEM. */
  function KeyMaterial(dh1: Bytes, dh2: Bytes, dh3: Bytes, dh4: Option<Bytes>, kem: Bytes): (ikm: Bytes) {
    dh1 + dh2 + dh3 + (if dh4.Some? then dh4.value else []) + kem
  }

  function Sender(s: Suite, me: IdentityKeys, b: Bundle, ephemeral: Bytes, coins: Bytes): (r: Result<(Bytes, Init)>) {
    if !ValidBundle(s, b) then Err(Signature) else
      var dh1 := SharedSecret(s, me.dh, b.signed.publicKey);
      var dh2 := SharedSecret(s, ephemeral, b.identity.dhPublic);
      var dh3 := SharedSecret(s, ephemeral, b.signed.publicKey);
      var dh4 := if b.oneTime.Some? then SharedSecret(s, ephemeral, b.oneTime.value.publicKey) else None;
      if dh1.None? || dh2.None? || dh3.None? || (b.oneTime.Some? && dh4.None?) then Err(Error.KeyExchange) else
        var (ciphertext, kem) := Encapsulate(s, b.kem.publicKey, coins);
        var secret := SecretFrom(s, KeyMaterial(dh1.value, dh2.value, dh3.value, dh4, kem));
        Ok((secret, Init(PublicIdentity(s, me), PublicKey(s, ephemeral), ciphertext,
                         if b.oneTime.Some? then Some(b.oneTime.value.id) else None, b.signed.id, b.kem.id)))
  }

  function Receiver(s: Suite, me: IdentityKeys, signedSecret: Bytes, kemSecret: Bytes, oneTime: Option<Bytes>,
                    init: Init)
    : (r: Result<Bytes>)
  {
    var dh1 := SharedSecret(s, signedSecret, init.sender.dhPublic);
    var dh2 := SharedSecret(s, me.dh, init.ephemeral);
    var dh3 := SharedSecret(s, signedSecret, init.ephemeral);
    var dh4 := if oneTime.Some? then SharedSecret(s, oneTime.value, init.ephemeral) else None;
    if dh1.None? || dh2.None? || dh3.None? || (oneTime.Some? && dh4.None?) then Err(Error.KeyExchange) else
      var kem := Decapsulate(s, kemSecret, init.kemCiphertext);
      Ok(SecretFrom(s, KeyMaterial(dh1.value, dh2.value, dh3.value, dh4, kem)))
  }

  // ---------------------------------------------------------------
  // What the two halves promise, in terms of the primitives
  // ---------------------------------------------------------------

  /** What an exchange contributes, if it succeeds. */
  function Agreed(s: Suite, secret: Bytes, publicKey: Bytes): (r: Bytes) {
    match s.dh(secret, publicKey)
    case None => []
    case Some(shared) => shared
  }

  /** The sender's secret, written out: four exchanges and the encapsulated secret, in this order. */
  function SenderSecret(s: Suite, me: IdentityKeys, b: Bundle, ephemeral: Bytes, coins: Bytes): (r: Bytes) {
    var fourth := if b.oneTime.Some? then Agreed(s, ephemeral, b.oneTime.value.publicKey) else [];
    s.derive(Zeros(32),
             Agreed(s, me.dh, b.signed.publicKey) + Agreed(s, ephemeral, b.identity.dhPublic)
             + Agreed(s, ephemeral, b.signed.publicKey) + fourth + s.encapsulate(b.kem.publicKey, coins).1,
             X3dhInfo, 32)
  }

  function ReceiverSecret(s: Suite, me: IdentityKeys, signedSecret: Bytes, kemSecret: Bytes, oneTime: Option<Bytes>,
                          init: Init): (r: Bytes) {
    var fourth := if oneTime.Some? then Agreed(s, oneTime.value, init.ephemeral) else [];
    s.derive(Zeros(32),
             Agreed(s, signedSecret, init.sender.dhPublic) + Agreed(s, me.dh, init.ephemeral)
             + Agreed(s, signedSecret, init.ephemeral) + fourth + s.decapsulate(kemSecret, init.kemCiphertext),
             X3dhInfo, 32)
  }

  /** Every exchange the sender makes succeeds. */
  predicate SenderExchanges(s: Suite, me: IdentityKeys, b: Bundle, ephemeral: Bytes) {
    && s.dh(me.dh, b.signed.publicKey).Some? && s.dh(ephemeral, b.identity.dhPublic).Some?
    && s.dh(ephemeral, b.signed.publicKey).Some?
    && (b.oneTime.Some? ==> s.dh(ephemeral, b.oneTime.value.publicKey).Some?)
  }

  /**
   * The sender, for any bundle whatever: it refuses with a signature error exactly if one of the two
   * pre-keys is not signed by the identity in the bundle, with a key exchange error exactly if they
   * are but an exchange fails, and otherwise names the keys it used and derives the secret from all
   * exchanges and the encapsulated secret.
   */
  lemma SenderMeaning(s: Suite, me: IdentityKeys, b: Bundle, ephemeral: Bytes, coins: Bytes)
    ensures var r := Sender(s, me, b, ephemeral, coins);
            && (r == Err(Signature) <==>
                  || !Verify(s, b.identity.verifying, b.signed.publicKey, b.signed.signature)
                  || !Verify(s, b.identity.verifying, b.kem.publicKey, b.kem.signature))
            && (r == Err(Error.KeyExchange) <==> r != Err(Signature) && !SenderExchanges(s, me, b, ephemeral))
            && (r.Err? ==> r == Err(Signature) || r == Err(Error.KeyExchange))
            && (r.Ok? ==>
                  var (secret, init) := r.value;
                  && secret == SenderSecret(s, me, b, ephemeral, coins)
                  && init.sender.verifying == s.verifyingOf(me.signing) && init.sender.dhPublic == s.publicOf(me.dh)
                  && init.ephemeral == s.publicOf(ephemeral)
                  && init.kemCiphertext == s.encapsulate(b.kem.publicKey, coins).0
                  && init.signedId == b.signed.id && init.kemId == b.kem.id
                  && init.oneTimeId.Some? == b.oneTime.Some?
                  && (b.oneTime.Some? ==> init.oneTimeId.value == b.oneTime.value.id))
  {
  }

  /** The receiver: its secret is derived from the mirrored exchanges and the decapsulated secret. */
  lemma ReceiverMeaning(s: Suite, me: IdentityKeys, signedSecret: Bytes, kemSecret: Bytes, oneTime: Option<Bytes>,
                        init: Init)
    ensures var r := Receiver(s, me, signedSecret, kemSecret, oneTime, init);
            && (r.Ok? <==>
                  && s.dh(signedSecret, init.sender.dhPublic).Some? && s.dh(me.dh, init.ephemeral).Some?
                  && s.dh(signedSecret, init.ephemeral).Some?
                  && (oneTime.Some? ==> s.dh(oneTime.value, init.ephemeral).Some?))
            && (r.Err? ==> r == Err(Error.KeyExchange))
            && (r.Ok? ==> r.value == ReceiverSecret(s, me, signedSecret, kemSecret, oneTime, init))
  {
  }

  /** Concatenations of 32-byte parts agree only part by part. */
  lemma MaterialParts(a: seq<Bytes>, dh4: Option<Bytes>, b: seq<Bytes>, dh4': Option<Bytes>)
    requires |a| == 4 && |b| == 4 && (forall i :: 0 <= i < 4 ==> |a[i]| == KEY_SIZE && |b[i]| == KEY_SIZE)
    requires (dh4.Some? ==> |dh4.value| == KEY_SIZE) && (dh4'.Some? ==> |dh4'.value| == KEY_SIZE)
    requires KeyMaterial(a[0], a[1], a[2], dh4, a[3]) == KeyMaterial(b[0], b[1], b[2], dh4', b[3])
    ensures a == b && dh4 == dh4'
  {
    var x, y := if dh4.Some? then dh4.value else [], if dh4'.Some? then dh4'.value else [];
    assert |KeyMaterial(a[0], a[1], a[2], dh4, a[3])| == 4 * KEY_SIZE + |x|;
    assert |KeyMaterial(b[0], b[1], b[2], dh4', b[3])| == 4 * KEY_SIZE + |y|;
    FiveParts(a[0], a[1], a[2], x, a[3]);
    FiveParts(b[0], b[1], b[2], y, b[3]);
  }

  /**
   * The secret binds everything it is derived from: if the derivation does not collide, two senders
   * with the same secret made the same exchanges, with and without one-time key, and encapsulated
   * the same secret.
   */
  lemma SecretBindsAll(s: Suite, me: IdentityKeys, b: Bundle, x: Bytes, coins: Bytes, me': IdentityKeys, b': Bundle,
                       x': Bytes, coins': Bytes)
    requires SizeLaw(s) && KemLaw(s)
    requires forall ikm: Bytes, ikm': Bytes :: SecretFrom(s, ikm) == SecretFrom(s, ikm') ==> ikm == ikm'
    requires Sender(s, me, b, x, coins).Ok? && Sender(s, me', b', x', coins').Ok?
    requires Sender(s, me, b, x, coins).value.0 == Sender(s, me', b', x', coins').value.0
    ensures SharedSecret(s, me.dh, b.signed.publicKey) == SharedSecret(s, me'.dh, b'.signed.publicKey)
    ensures SharedSecret(s, x, b.identity.dhPublic) == SharedSecret(s, x', b'.identity.dhPublic)
    ensures SharedSecret(s, x, b.signed.publicKey) == SharedSecret(s, x', b'.signed.publicKey)
    ensures b.oneTime.Some? == b'.oneTime.Some?
    ensures b.oneTime.Some? ==>
              SharedSecret(s, x, b.oneTime.value.publicKey) == SharedSecret(s, x', b'.oneTime.value.publicKey)
    ensures Encapsulate(s, b.kem.publicKey, coins).1 == Encapsulate(s, b'.kem.publicKey, coins').1
  {
    hide SecretFrom, KeyMaterial, ValidBundle;
    var a := SenderParts(s, me, b, x, coins);
    var c := SenderParts(s, me', b', x', coins');
    var dh4 := if b.oneTime.Some? then SharedSecret(s, x, b.oneTime.value.publicKey) else None;
    var dh4' := if b'.oneTime.Some? then SharedSecret(s, x', b'.oneTime.value.publicKey) else None;
    MaterialParts(a, dh4, c, dh4');
    assert a[0] == c[0] && a[1] == c[1] && a[2] == c[2] && a[3] == c[3];
  }

  function SenderParts(s: Suite, me: IdentityKeys, b: Bundle, x: Bytes, coins: Bytes): (parts: seq<Bytes>)
    requires Sender(s, me, b, x, coins).Ok?
  {
    [SharedSecret(s, me.dh, b.signed.publicKey).value, SharedSecret(s, x, b.identity.dhPublic).value,
     SharedSecret(s, x, b.signed.publicKey).value, Encapsulate(s, b.kem.publicKey, coins).1]
  }

  /** The buffer both halves fill: 160 bytes, a moving offset, the used part. */
  method FillKeyMaterial(dh1: Bytes, dh2: Bytes, dh3: Bytes, dh4: Option<Bytes>, kem: Bytes) returns (used: Bytes)
    requires |dh1| == KEY_SIZE && |dh2| == KEY_SIZE && |dh3| == KEY_SIZE && |kem| == KEY_SIZE
    requires dh4.Some? ==> |dh4.value| == KEY_SIZE
    ensures used == KeyMaterial(dh1, dh2, dh3, dh4, kem)
  {
    var ikm := new Byte[IKM_SIZE](_ => 0);
    var offset := 0;
    CopyInto(ikm, offset, dh1);
    offset := offset + KEY_SIZE;
    assert ikm[..offset] == dh1;
    CopyInto(ikm, offset, dh2);
    offset := offset + KEY_SIZE;
    assert ikm[..offset] == dh1 + dh2;
    CopyInto(ikm, offset, dh3);
    offset := offset + KEY_SIZE;
    assert ikm[..offset] == dh1 + dh2 + dh3;
    if dh4.Some? {
      CopyInto(ikm, offset, dh4.value);
      offset := offset + KEY_SIZE;
    }
    assert ikm[..offset] == dh1 + dh2 + dh3 + (if dh4.Some? then dh4.value else []);
    CopyInto(ikm, offset, kem);
    offset := offset + KEY_SIZE;
    used := ikm[..offset];
  }

  /** `copy_from_slice` into a window of the buffer. */
  method CopyInto(a: array<Byte>, offset: nat, b: Bytes)
    requires offset + |b| <= a.Length
    modifies a
    ensures a[..offset] == old(a[..offset]) && a[offset..offset + |b|] == b
    ensures a[..offset + |b|] == old(a[..offset]) + b
  {
    var i := 0;
    while i < |b|
      invariant 0 <= i <= |b|
      invariant a[..offset] == old(a[..offset]) && a[offset..offset + i] == b[..i]
    {
      a[offset + i] := b[i];
      i := i + 1;
    }
  }

  method X3dhSender(s: Suite, me: IdentityKeys, b: Bundle, ephemeral: Bytes,
                    coins: Bytes) returns (r: Result<(Bytes, Init)>)
    requires SizeLaw(s) && KemLaw(s)
    ensures r == Sender(s, me, b, ephemeral, coins)
    ensures r == Err(Signature) <==>
              || !Verify(s, b.identity.verifying, b.signed.publicKey, b.signed.signature)
              || !Verify(s, b.identity.verifying, b.kem.publicKey, b.kem.signature)
    ensures r.Ok? ==> r.value.0 == SenderSecret(s, me, b, ephemeral, coins)
  {
    SenderMeaning(s, me, b, ephemeral, coins);
    hide KeyMaterial, SenderSecret;
    if !ValidBundle(s, b) {
      return Err(Signature);
    }
    var dh1 := SharedSecret(s, me.dh, b.signed.publicKey);
    var dh2 := SharedSecret(s, ephemeral, b.identity.dhPublic);
    var dh3 := SharedSecret(s, ephemeral, b.signed.publicKey);
    if dh1.None? || dh2.None? || dh3.None? {
      return Err(Error.KeyExchange);
    }
    var dh4: Option<Bytes> := None;
    if b.oneTime.Some? {
      dh4 := SharedSecret(s, ephemeral, b.oneTime.value.publicKey);
      if dh4.None? {
        return Err(Error.KeyExchange);
      }
    }
    var (ciphertext, kem) := Encapsulate(s, b.kem.publicKey, coins);
    var ikm := FillKeyMaterial(dh1.value, dh2.value, dh3.value, dh4, kem);
    var oneTimeId := if b.oneTime.Some? then Some(b.oneTime.value.id) else None;
    r := Ok((SecretFrom(s, ikm),
             Init(PublicIdentity(s, me), PublicKey(s, ephemeral), ciphertext, oneTimeId, b.signed.id, b.kem.id)));
  }

  method X3dhReceiver(s: Suite, me: IdentityKeys, signedSecret: Bytes, kemSecret: Bytes, oneTime: Option<Bytes>,
                      init: Init)
    returns (r: Result<Bytes>)
    requires SizeLaw(s)
    ensures r == Receiver(s, me, signedSecret, kemSecret, oneTime, init)
    ensures r.Ok? ==> r.value == ReceiverSecret(s, me, signedSecret, kemSecret, oneTime, init)
  {
    ReceiverMeaning(s, me, signedSecret, kemSecret, oneTime, init);
    hide KeyMaterial, ReceiverSecret;
    var dh1 := SharedSecret(s, signedSecret, init.sender.dhPublic);
    var dh2 := SharedSecret(s, me.dh, init.ephemeral);
    var dh3 := SharedSecret(s, signedSecret, init.ephemeral);
    if dh1.None? || dh2.None? || dh3.None? {
      return Err(Error.KeyExchange);
    }
    var dh4: Option<Bytes> := None;
    if oneTime.Some? {
      dh4 := SharedSecret(s, oneTime.value, init.ephemeral);
      if dh4.None? {
        return Err(Error.KeyExchange);
      }
    }
    var ikm := FillKeyMaterial(dh1.value, dh2.value, dh3.value, dh4, Decapsulate(s, kemSecret, init.kemCiphertext));
    r := Ok(SecretFrom(s, ikm));
  }

  // ---------------------------------------------------------------
  // The init message on the wire
  // ---------------------------------------------------------------

  predicate InitOk(m: Init) {
    && IdentityOk(m.sender) && |m.ephemeral| == KEY_SIZE && |m.kemCiphertext| == KEM_CIPHERTEXT_LEN
    && m.signedId < U32 && m.kemId < U32 && (m.oneTimeId.Some? ==> m.oneTimeId.value < U32)
  }

  function EncodeOptionalId(id: Option<nat>): (b: Bytes) {
    if id.Some? then [1] + LittleEndian(id.value, 4) else [0]
  }

  function EncodeIds(oneTimeId: Option<nat>, signedId: nat, kemId: nat): (b: Bytes) {
    EncodeOptionalId(oneTimeId) + LittleEndian(signedId, 4) + LittleEndian(kemId, 4)
  }

  function EncodeInit(m: Init): (b: Bytes) {
    EncodeIdentity(m.sender) + m.ephemeral + LittleEndian(|m.kemCiphertext|, 4) + m.kemCiphertext
    + EncodeIds(m.oneTimeId, m.signedId, m.kemId)
  }

  /** The flag, the optional id, the two ids. */
  function DecodeIds(b: Bytes): (r: Result<(Option<nat>, nat, nat)>) {
    if |b| < 1 then Err(Serialization)
    else if b[0] == 1 then
      if |b| < 13 then Err(Serialization)
      else Ok((Some(FromLittleEndian(b[1..5])), FromLittleEndian(b[5..9]), FromLittleEndian(b[9..13])))
    else if |b| < 9 then Err(Serialization)
    else Ok((None, FromLittleEndian(b[1..5]), FromLittleEndian(b[5..9])))
  }

  function DecodeInit(b: Bytes): (r: Result<Init>) {
    if |b| < INIT_MIN_LEN then Err(Serialization) else
      var i, j := IDENTITY_PUBLIC_LEN, IDENTITY_PUBLIC_LEN + KEY_SIZE;
      var k := j + 4;
      var len := FromLittleEndian(b[j..k]);
      if |b| < k + len then Err(Serialization)
      else if len != KEM_CIPHERTEXT_LEN then Err(Kem)
      else
        match DecodeIds(b[k + len..])
        case Err(e) => Err(e)
        case Ok((oneTimeId, signedId, kemId)) =>
          Ok(Init(DecodeIdentity(b[..i]), b[i..j], b[k..k + len], oneTimeId, signedId, kemId))
  }

  lemma IdsRoundTrip(oneTimeId: Option<nat>, signedId: nat, kemId: nat, tail: Bytes)
    requires (oneTimeId.Some? ==> oneTimeId.value < U32) && signedId < U32 && kemId < U32
    ensures |EncodeIds(oneTimeId, signedId, kemId)| >= 9
    ensures DecodeIds(EncodeIds(oneTimeId, signedId, kemId) + tail) == Ok((oneTimeId, signedId, kemId))
  {
    hide LittleEndian, FromLittleEndian;
    WireIntegers(signedId);
    WireIntegers(kemId);
    var x, y := LittleEndian(signedId, 4), LittleEndian(kemId, 4);
    if oneTimeId.Some? {
      WireIntegers(oneTimeId.value);
      FiveParts([1], LittleEndian(oneTimeId.value, 4), x, y, tail);
    } else {
      FiveParts([0], x, y, tail, []);
      assert [0] + x + y + tail + [] == [0] + x + y + tail;
    }
  }

  lemma InitRoundTrip(m: Init, tail: Bytes)
    requires InitOk(m)
    ensures DecodeInit(EncodeInit(m) + tail) == Ok(m)
  {
    hide LittleEndian, FromLittleEndian, EncodeIdentity, DecodeIdentity, EncodeIds, DecodeIds;
    IdentityRoundTrip(m.sender);
    WireIntegers(|m.kemCiphertext|);
    IdsRoundTrip(m.oneTimeId, m.signedId, m.kemId, tail);
    var ids := EncodeIds(m.oneTimeId, m.signedId, m.kemId) + tail;
    var x, len := EncodeIdentity(m.sender), LittleEndian(|m.kemCiphertext|, 4);
    assert EncodeInit(m) + tail == x + m.ephemeral + len + m.kemCiphertext + ids;
    FiveParts(x, m.ephemeral, len, m.kemCiphertext, ids);
  }

  // ---------------------------------------------------------------
  // Protocol messages
  // ---------------------------------------------------------------

  datatype Message = RequestBundle | BundleMessage(bundle: Bundle) | InitMessage(init: Init) | Complete

  function EncodeMessage(m: Message): (b: Bytes) {
    match m
    case RequestBundle => [0]
    case BundleMessage(bundle) => [1] + EncodeBundle(bundle)
    case InitMessage(init) => [2] + EncodeInit(init)
    case Complete => [3]
  }

  function DecodeMessage(s: Suite, b: Bytes): (r: Result<Message>) {
    if b == [] then Err(Serialization)
    else if b[0] == 0 then Ok(RequestBundle)
    else if b[0] == 1 then
      match DecodeBundle(s, b[1..])
      case Err(e) => Err(e)
      case Ok(bundle) => Ok(BundleMessage(bundle))
    else if b[0] == 2 then
      match DecodeInit(b[1..])
      case Err(e) => Err(e)
      case Ok(init) => Ok(InitMessage(init))
    else if b[0] == 3 then Ok(Complete)
    else Err(Serialization)
  }

  predicate MessageOk(s: Suite, m: Message) {
    (m.BundleMessage? ==> BundleOk(m.bundle) && SignaturesDecode(s, m.bundle)) && (m.InitMessage? ==> InitOk(m.init))
  }

  /** Every protocol message comes back from its bytes. */
  lemma MessageRoundTrip(s: Suite, m: Message, tail: Bytes)
    requires MessageOk(s, m)
    ensures DecodeMessage(s, EncodeMessage(m) + tail) == Ok(m)
  {
    hide EncodeBundle, DecodeBundle, EncodeInit, DecodeInit;
    match m
    case BundleMessage(bundle) =>
      BundleRoundTrip(s, bundle, tail);
      assert ([1] + EncodeBundle(bundle) + tail)[1..] == EncodeBundle(bundle) + tail;
    case InitMessage(init) =>
      InitRoundTrip(init, tail);
      assert ([2] + EncodeInit(init) + tail)[1..] == EncodeInit(init) + tail;
    case RequestBundle =>
    case Complete =>
  }

  // ---------------------------------------------------------------
  // Agreement
  // ---------------------------------------------------------------

  ghost predicate HandshakeLaws(s: Suite) {
    DhLaw(s) && KemLaw(s) && SignatureLaw(s)
  }

  predicate SecretsOk(k: PreKeySecrets) {
    k.signedId < U32 && k.timestamp < U64 && k.kemId < U32 && (k.oneTime.Some? ==> k.oneTime.value.0 < U32)
  }

  lemma PublishedOk(s: Suite, k: PreKeySecrets)
    requires HandshakeLaws(s) && SecretsOk(k)
    ensures BundleOk(Publish(s, k)) && SignaturesDecode(s, Publish(s, k)) && ValidBundle(s, Publish(s, k))
    ensures var b := Publish(s, k);
            && b.signed.id == k.signedId && b.signed.timestamp == k.timestamp && b.kem.id == k.kemId
            && b.oneTime.Some? == k.oneTime.Some? && (k.oneTime.Some? ==> b.oneTime.value.id == k.oneTime.value.0)
  {
  }

  /** The one-time secret the receiver looks up for an init message; a used key is one it holds. */
  function LookedUp(k: PreKeySecrets, init: Init): (r: Option<Bytes>) {
    if init.oneTimeId.Some? && k.oneTime.Some? && init.oneTimeId.value == k.oneTime.value.0
    then Some(k.oneTime.value.1) else None
  }

  /** The one-time secret is used exactly if the init message names it. */
  lemma OneTimeUsed(s: Suite, k: PreKeySecrets, init: Init)
    ensures LookedUp(k, init).Some? <==> k.oneTime.Some? && init.oneTimeId == Some(k.oneTime.value.0)
    ensures LookedUp(k, init).Some? ==> LookedUp(k, init).value == k.oneTime.value.1
  {
  }

  lemma SendOk(s: Suite, alice: IdentityKeys, k: PreKeySecrets, ephemeral: Bytes, coins: Bytes)
    requires HandshakeLaws(s) && SecretsOk(k)
    ensures var sent := Sender(s, alice, Publish(s, k), ephemeral, coins);
            && sent.Ok? && InitOk(sent.value.1)
            && var (secret, init) := sent.value;
               Receiver(s, k.identity, k.signedSecret, k.kemSecret, LookedUp(k, init), init) == Ok(secret)
  {
    hide KeyMaterial, SecretFrom, SignatureLaw;
    PublishedOk(s, k);
    assert SharedSecret(s, alice.dh, PublicKey(s, k.signedSecret))
      == SharedSecret(s, k.signedSecret, PublicKey(s, alice.dh));
    assert SharedSecret(s, ephemeral, PublicKey(s, k.identity.dh))
      == SharedSecret(s, k.identity.dh, PublicKey(s, ephemeral));
    assert SharedSecret(s, ephemeral, PublicKey(s, k.signedSecret))
      == SharedSecret(s, k.signedSecret, PublicKey(s, ephemeral));
    if k.oneTime.Some? {
      assert SharedSecret(s, ephemeral, PublicKey(s, k.oneTime.value.1))
        == SharedSecret(s, k.oneTime.value.1, PublicKey(s, ephemeral));
    }
    var sent := Sender(s, alice, Publish(s, k), ephemeral, coins);
    assert |VerifyingKey(s, alice.signing)| == VERIFYING_KEY_LEN by {
      IdentitySize(s, alice);
    }
  }

  lemma IdentitySize(s: Suite, k: IdentityKeys)
    requires SignatureLaw(s)
    ensures |VerifyingKey(s, k.signing)| == VERIFYING_KEY_LEN
  {
  }

  /** What one side of the handshake makes of the other's bytes. */
  function SenderOnWire(s: Suite, alice: IdentityKeys, bundleBytes: Bytes, ephemeral: Bytes,
                        coins: Bytes): (r: Result<(Bytes, Bytes)>) {
    match DecodeMessage(s, bundleBytes)
    case Err(e) => Err(e)
    case Ok(m) =>
      if !m.BundleMessage? then Err(Serialization) else
        match Sender(s, alice, m.bundle, ephemeral, coins)
        case Err(e) => Err(e)
        case Ok((secret, init)) => Ok((secret, EncodeMessage(InitMessage(init))))
  }

  function ReceiverOnWire(s: Suite, k: PreKeySecrets, initBytes: Bytes): (r: Result<Bytes>) {
    match DecodeMessage(s, initBytes)
    case Err(e) => Err(e)
    case Ok(m) =>
      if !m.InitMessage? then Err(Serialization)
      else Receiver(s, k.identity, k.signedSecret, k.kemSecret, LookedUp(k, m.init), m.init)
  }

  /**
   * On the wire, for any bytes that decode to a bundle: a signature error exactly if a pre-key is not
   * signed by the identity, and on success the secret above.
   */
  lemma WireMeaning(s: Suite, alice: IdentityKeys, bytes: Bytes, ephemeral: Bytes, coins: Bytes)
    requires DecodeMessage(s, bytes).Ok? && DecodeMessage(s, bytes).value.BundleMessage?
    ensures var b, r := DecodeMessage(s, bytes).value.bundle, SenderOnWire(s, alice, bytes, ephemeral, coins);
            && (r == Err(Signature) <==>
                  || !Verify(s, b.identity.verifying, b.signed.publicKey, b.signed.signature)
                  || !Verify(s, b.identity.verifying, b.kem.publicKey, b.kem.signature))
            && (r.Ok? <==> r != Err(Signature) && SenderExchanges(s, alice, b, ephemeral))
            && (r.Ok? ==> r.value.0 == SenderSecret(s, alice, b, ephemeral, coins))
  {
    hide DecodeMessage, Sender, SenderSecret, SenderExchanges;
    SenderMeaning(s, alice, DecodeMessage(s, bytes).value.bundle, ephemeral, coins);
  }

  /**
   * The key exchange through the wire, for all identities and pre-keys, with or without a one-time
   * key: the published bundle and the init message, both passed as bytes, leave both sides with
   * the same secret.
   */
  lemma SameSecret(s: Suite, alice: IdentityKeys, k: PreKeySecrets, ephemeral: Bytes, coins: Bytes)
    requires HandshakeLaws(s) && SecretsOk(k)
    ensures var sent := SenderOnWire(s, alice, EncodeMessage(BundleMessage(Publish(s, k))), ephemeral, coins);
            sent.Ok? && ReceiverOnWire(s, k, sent.value.1) == Ok(sent.value.0)
  {
    hide Sender, Receiver, Publish, EncodeMessage, DecodeMessage;
    var b := Publish(s, k);
    PublishedOk(s, k);
    MessageRoundTrip(s, BundleMessage(b), []);
    SendOk(s, alice, k, ephemeral, coins);
    var init := Sender(s, alice, b, ephemeral, coins).value.1;
    MessageRoundTrip(s, InitMessage(init), []);
    assert EncodeMessage(BundleMessage(b)) + [] == EncodeMessage(BundleMessage(b));
    assert EncodeMessage(InitMessage(init)) + [] == EncodeMessage(InitMessage(init));
  }
}
