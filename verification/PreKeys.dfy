/** The public pre-keys and the bundle a user publishes, with their byte encodings. */
module PreKeys {
  import opened Wrappers
  import opened Bytes
  import opened Primitives

  const IDENTITY_PUBLIC_LEN: nat := VERIFYING_KEY_LEN + KEY_SIZE
  const SIGNED_PUBLIC_LEN: nat := 4 + KEY_SIZE + SIGNATURE_LEN + 8
  const KEM_PUBLIC_LEN: nat := 4 + KEM_PUBLIC_KEY_LEN + SIGNATURE_LEN
  const ONE_TIME_PUBLIC_LEN: nat := 4 + KEY_SIZE
  const BUNDLE_MIN_LEN: nat := IDENTITY_PUBLIC_LEN + SIGNED_PUBLIC_LEN + KEM_PUBLIC_LEN + 1

  datatype IdentityPublic = IdentityPublic(verifying: Bytes, dhPublic: Bytes)
  datatype SignedPublic = SignedPublic(id: nat, publicKey: Bytes, signature: Bytes, timestamp: nat)
  datatype KemPublic = KemPublic(id: nat, publicKey: Bytes, signature: Bytes)
  datatype OneTimePublic = OneTimePublic(id: nat, publicKey: Bytes)
  datatype Bundle = Bundle(identity: IdentityPublic, signed: SignedPublic, kem: KemPublic,
    oneTime: Option<OneTimePublic>)

  /** The fixed sizes of keys and signatures, and the ranges of `u32` ids and `u64` timestamps. */
  predicate IdentityOk(i: IdentityPublic) {
    |i.verifying| == VERIFYING_KEY_LEN && |i.dhPublic| == KEY_SIZE
  }

  predicate SignedOk(p: SignedPublic) {
    p.id < U32 && |p.publicKey| == KEY_SIZE && |p.signature| == SIGNATURE_LEN && p.timestamp < U64
  }

  predicate KemOk(p: KemPublic) {
    p.id < U32 && |p.publicKey| == KEM_PUBLIC_KEY_LEN && |p.signature| == SIGNATURE_LEN
  }

  predicate OneTimeOk(p: OneTimePublic) {
    p.id < U32 && |p.publicKey| == KEY_SIZE
  }

  predicate BundleOk(b: Bundle) {
    IdentityOk(b.identity) && SignedOk(b.signed) && KemOk(b.kem) && (b.oneTime.Some? ==> OneTimeOk(b.oneTime.value))
  }

  predicate SignaturesDecode(s: Suite, b: Bundle) {
    SignatureDecodes(s, b.signed.signature) && SignatureDecodes(s, b.kem.signature)
  }

  // ---------------------------------------------------------------
  // Encodings
  // ---------------------------------------------------------------

  function EncodeIdentity(i: IdentityPublic): (b: Bytes) {
    i.verifying + i.dhPublic
  }

  function DecodeIdentity(b: Bytes): (i: IdentityPublic)
    requires |b| == IDENTITY_PUBLIC_LEN
    ensures IdentityOk(i)
  {
    IdentityPublic(b[..VERIFYING_KEY_LEN], b[VERIFYING_KEY_LEN..])
  }

  function EncodeSigned(p: SignedPublic): (b: Bytes) {
    LittleEndian(p.id, 4) + p.publicKey + p.signature + LittleEndian(p.timestamp, 8)
  }

  function DecodeSigned(b: Bytes): (p: SignedPublic)
    requires |b| == SIGNED_PUBLIC_LEN
  {
    var i, j := 4 + KEY_SIZE, 4 + KEY_SIZE + SIGNATURE_LEN;
    SignedPublic(FromLittleEndian(b[..4]), b[4..i], b[i..j], FromLittleEndian(b[j..]))
  }

  function EncodeKem(p: KemPublic): (b: Bytes) {
    LittleEndian(p.id, 4) + p.publicKey + p.signature
  }

  function DecodeKem(b: Bytes): (p: KemPublic)
    requires |b| == KEM_PUBLIC_LEN
  {
    var i := 4 + KEM_PUBLIC_KEY_LEN;
    KemPublic(FromLittleEndian(b[..4]), b[4..i], b[i..])
  }

  function EncodeOneTime(p: OneTimePublic): (b: Bytes) {
    LittleEndian(p.id, 4) + p.publicKey
  }

  function DecodeOneTime(b: Bytes): (p: OneTimePublic)
    requires |b| == ONE_TIME_PUBLIC_LEN
  {
    OneTimePublic(FromLittleEndian(b[..4]), b[4..])
  }

  /** Flag 1 and the one-time key, or flag 0. */
  function EncodeOptional(p: Option<OneTimePublic>): (b: Bytes) {
    if p.Some? then [1] + EncodeOneTime(p.value) else [0]
  }

  function EncodeBundle(b: Bundle): (bytes: Bytes) {
    EncodeIdentity(b.identity) + EncodeSigned(b.signed) + EncodeKem(b.kem) + EncodeOptional(b.oneTime)
  }

  /** Any flag other than 1 means none; bytes behind the last field are ignored. */
  function DecodeOptional(b: Bytes): (r: Result<Option<OneTimePublic>>)
    requires b != []
  {
    if b[0] != 1 then Ok(None)
    else if |b| < 1 + ONE_TIME_PUBLIC_LEN then Err(Serialization)
    else Ok(Some(DecodeOneTime(b[1..1 + ONE_TIME_PUBLIC_LEN])))
  }

  function DecodeBundle(s: Suite, bytes: Bytes): (r: Result<Bundle>) {
    if |bytes| < BUNDLE_MIN_LEN then Err(Serialization) else
      var i, j := IDENTITY_PUBLIC_LEN, IDENTITY_PUBLIC_LEN + SIGNED_PUBLIC_LEN;
      var k := j + KEM_PUBLIC_LEN;
      var signed, kem := DecodeSigned(bytes[i..j]), DecodeKem(bytes[j..k]);
      if !SignatureDecodes(s, signed.signature) || !SignatureDecodes(s, kem.signature) then Err(Signature) else
        match DecodeOptional(bytes[k..])
        case Err(e) => Err(e)
        case Ok(oneTime) => Ok(Bundle(DecodeIdentity(bytes[..i]), signed, kem, oneTime))
  }

  // ---------------------------------------------------------------
  // Round trips
  // ---------------------------------------------------------------

  lemma IdentityRoundTrip(i: IdentityPublic)
    requires IdentityOk(i)
    ensures |EncodeIdentity(i)| == IDENTITY_PUBLIC_LEN && DecodeIdentity(EncodeIdentity(i)) == i
  {
  }

  lemma SignedRoundTrip(p: SignedPublic)
    requires SignedOk(p)
    ensures |EncodeSigned(p)| == SIGNED_PUBLIC_LEN && DecodeSigned(EncodeSigned(p)) == p
  {
    hide LittleEndian, FromLittleEndian;
    WireIntegers(p.id);
    WireIntegers(p.timestamp);
    FiveParts(LittleEndian(p.id, 4), p.publicKey, p.signature, LittleEndian(p.timestamp, 8), []);
    assert EncodeSigned(p) + [] == EncodeSigned(p);
    var b, j := EncodeSigned(p), 4 + KEY_SIZE + SIGNATURE_LEN;
    assert b[j..] == b[j..j + 8];
  }

  lemma KemRoundTrip(p: KemPublic)
    requires KemOk(p)
    ensures |EncodeKem(p)| == KEM_PUBLIC_LEN && DecodeKem(EncodeKem(p)) == p
  {
    hide LittleEndian, FromLittleEndian;
    WireIntegers(p.id);
    Parts(LittleEndian(p.id, 4), p.publicKey, p.signature);
  }

  lemma OneTimeRoundTrip(p: OneTimePublic)
    requires OneTimeOk(p)
    ensures |EncodeOneTime(p)| == ONE_TIME_PUBLIC_LEN && DecodeOneTime(EncodeOneTime(p)) == p
  {
    hide LittleEndian, FromLittleEndian;
    WireIntegers(p.id);
    assert EncodeOneTime(p)[..4] == LittleEndian(p.id, 4);
  }

  lemma OptionalRoundTrip(p: Option<OneTimePublic>, tail: Bytes)
    requires p.Some? ==> OneTimeOk(p.value)
    ensures EncodeOptional(p) != [] && DecodeOptional(EncodeOptional(p) + tail) == Ok(p)
  {
    if p.Some? {
      hide EncodeOneTime, DecodeOneTime;
      OneTimeRoundTrip(p.value);
      assert ([1] + EncodeOneTime(p.value) + tail)[1..1 + ONE_TIME_PUBLIC_LEN] == EncodeOneTime(p.value);
    }
  }

  /** A bundle comes back from its bytes, with or without a one-time key, whatever follows. */
  lemma BundleRoundTrip(s: Suite, b: Bundle, tail: Bytes)
    requires BundleOk(b) && SignaturesDecode(s, b)
    ensures DecodeBundle(s, EncodeBundle(b) + tail) == Ok(b)
  {
    hide EncodeIdentity, DecodeIdentity, EncodeSigned, DecodeSigned, EncodeKem, DecodeKem, EncodeOptional;
    hide DecodeOptional;
    IdentityRoundTrip(b.identity);
    SignedRoundTrip(b.signed);
    KemRoundTrip(b.kem);
    OptionalRoundTrip(b.oneTime, tail);
    var x, y, z, w := EncodeIdentity(b.identity), EncodeSigned(b.signed), EncodeKem(b.kem), EncodeOptional(b.oneTime);
    FiveParts(x, y, z, w, tail);
    assert (x + y + z + w + tail)[|x| + |y| + |z|..] == w + tail;
  }

  /** Whatever decodes is well-formed. */
  lemma DecodedOk(s: Suite, bytes: Bytes)
    requires DecodeBundle(s, bytes).Ok?
    ensures BundleOk(DecodeBundle(s, bytes).value) && SignaturesDecode(s, DecodeBundle(s, bytes).value)
  {
    var i, j := IDENTITY_PUBLIC_LEN, IDENTITY_PUBLIC_LEN + SIGNED_PUBLIC_LEN;
    var k := j + KEM_PUBLIC_LEN;
    SignedRanges(bytes[i..j]);
    LittleEndianRange(bytes[j..k][..4]);
    if DecodeBundle(s, bytes).value.oneTime.Some? {
      LittleEndianRange(bytes[k..][1..1 + ONE_TIME_PUBLIC_LEN][..4]);
    }
    Pow256Values();
  }

  lemma SignedRanges(b: Bytes)
    requires |b| == SIGNED_PUBLIC_LEN
    ensures SignedOk(DecodeSigned(b))
  {
    LittleEndianRange(b[..4]);
    LittleEndianRange(b[4 + KEY_SIZE + SIGNATURE_LEN..]);
    Pow256Values();
  }

  // ---------------------------------------------------------------
  // Validation
  // ---------------------------------------------------------------

  /** `validate`: both signed keys carry a signature of the identity in the bundle. */
  predicate ValidBundle(s: Suite, b: Bundle) {
    && Verify(s, b.identity.verifying, b.signed.publicKey, b.signed.signature)
    && Verify(s, b.identity.verifying, b.kem.publicKey, b.kem.signature)
  }

  // ---------------------------------------------------------------
  // The serialiser and parser as written: a growing vector, a moving offset
  // ---------------------------------------------------------------

  method BundleToBytes(b: Bundle) returns (bytes: Bytes)
    ensures bytes == EncodeBundle(b)
  {
    hide EncodeIdentity, EncodeSigned, EncodeKem, EncodeOneTime;
    bytes := EncodeIdentity(b.identity);
    bytes := bytes + EncodeSigned(b.signed);
    bytes := bytes + EncodeKem(b.kem);
    if b.oneTime.Some? {
      ghost var before := bytes;
      bytes := bytes + [1];
      bytes := bytes + EncodeOneTime(b.oneTime.value);
      assert bytes == before + ([1] + EncodeOneTime(b.oneTime.value));
    } else {
      bytes := bytes + [0];
    }
  }

  method BundleFromBytes(s: Suite, bytes: Bytes) returns (r: Result<Bundle>)
    ensures r == DecodeBundle(s, bytes)
  {
    hide DecodeIdentity, DecodeSigned, DecodeKem, DecodeOneTime;
    if |bytes| < BUNDLE_MIN_LEN {
      return Err(Serialization);
    }
    var offset := 0;
    var identity := DecodeIdentity(bytes[offset..offset + IDENTITY_PUBLIC_LEN]);
    offset := offset + IDENTITY_PUBLIC_LEN;
    var signed := DecodeSigned(bytes[offset..offset + SIGNED_PUBLIC_LEN]);
    if !SignatureDecodes(s, signed.signature) {
      return Err(Signature);
    }
    offset := offset + SIGNED_PUBLIC_LEN;
    var kem := DecodeKem(bytes[offset..offset + KEM_PUBLIC_LEN]);
    if !SignatureDecodes(s, kem.signature) {
      return Err(Signature);
    }
    offset := offset + KEM_PUBLIC_LEN;
    ghost var rest := bytes[offset..];
    var flag := bytes[offset];
    offset := offset + 1;
    var oneTime := None;
    if flag == 1 {
      if |bytes| < offset + ONE_TIME_PUBLIC_LEN {
        return Err(Serialization);
      }
      assert rest[1..1 + ONE_TIME_PUBLIC_LEN] == bytes[offset..offset + ONE_TIME_PUBLIC_LEN];
      oneTime := Some(DecodeOneTime(bytes[offset..offset + ONE_TIME_PUBLIC_LEN]));
    }
    r := Ok(Bundle(identity, signed, kem, oneTime));
  }
}
