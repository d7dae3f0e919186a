/** The wire formats byte by byte: where each field of an encoding stands, and how integers are written. */
module WireLayouts {
  import opened Wrappers
  import opened Bytes
  import opened Primitives
  import opened Text
  import opened Ice
  import MessageFormat
  import opened PreKeys
  import opened KeyExchange
  import Stun

  /** The big-endian integers at a position. */
  function BigU16(b: Bytes, i: nat): (n: nat)
    requires i + 2 <= |b|
  {
    0x100 * Octet(b, i) + Octet(b, i + 1)
  }

  function BigU32(b: Bytes, i: nat): (n: nat)
    requires i + 4 <= |b|
  {
    0x1_0000 * BigU16(b, i) + BigU16(b, i + 2)
  }

  /** The little-endian integers at a position. */
  function LittleU32(b: Bytes, i: nat): (n: nat)
    requires i + 4 <= |b|
  {
    Octet(b, i) + 0x100 * Octet(b, i + 1) + 0x1_0000 * Octet(b, i + 2)
    + 0x100_0000 * Octet(b, i + 3)
  }

  function LittleU64(b: Bytes, i: nat): (n: nat)
    requires i + 8 <= |b|
  {
    LittleU32(b, i) + 0x1_0000_0000 * LittleU32(b, i + 4)
  }

  /** Integers as they stand in a longer string. */
  lemma BigAt(b: Bytes, i: nat, n: nat)
    ensures i + 2 <= |b| && n < U16 && b[i..i + 2] == BigEndian(n, 2) ==> BigU16(b, i) == n
    ensures i + 4 <= |b| && n < U32 && b[i..i + 4] == BigEndian(n, 4) ==> BigU32(b, i) == n
  {
    hide BigEndian, FromBigEndian;
    WireIntegers(n);
    if i + 2 <= |b| {
      BigEndianValue(b[i..i + 2]);
    }
    if i + 4 <= |b| {
      BigEndianValue(b[i..i + 4]);
    }
  }

  lemma LittleAt(b: Bytes, i: nat, n: nat)
    ensures i + 4 <= |b| && n < U32 && b[i..i + 4] == LittleEndian(n, 4) ==> LittleU32(b, i) == n
    ensures i + 8 <= |b| && n < U64 && b[i..i + 8] == LittleEndian(n, 8) ==> LittleU64(b, i) == n
  {
    hide LittleEndian, FromLittleEndian;
    WireIntegers(n);
    if i + 4 <= |b| {
      LittleEndianValue(b[i..i + 4]);
    }
    if i + 8 <= |b| {
      var c := b[i..i + 8];
      LittleEndianValue(c);
      LittleEndianValue(c[..4]);
      LittleEndianValue(c[4..]);
    }
  }

  // ---------------------------------------------------------------
  // The ratchet header and the encrypted message
  // ---------------------------------------------------------------

  /** Key, number, previous length, flags, then what the flags announce. */
  lemma HeaderLayout(h: MessageFormat.Header)
    requires MessageFormat.HeaderOk(h)
    ensures var b := MessageFormat.EncodeHeader(h);
            var i := if h.kemCiphertext.Some? then 41 + 1088 else 41;
            && |b| == (if h.kemPublic.Some? then i + 1184 else i)
            && b[..32] == h.dhPublic && BigU32(b, 32) == h.number && BigU32(b, 36) == h.previousLength
            && b[40] == (if h.kemCiphertext.Some? then 1 else 0) + (if h.kemPublic.Some? then 2 else 0)
            && (h.kemCiphertext.Some? ==> b[41..i] == h.kemCiphertext.value)
            && (h.kemPublic.Some? ==> b[i..] == h.kemPublic.value)
  {
    hide BigEndian, BigU32, LittleU32;
    var b := MessageFormat.EncodeHeader(h);
    assert b[32..36] == BigEndian(h.number, 4);
    assert b[36..40] == BigEndian(h.previousLength, 4);
    BigAt(b, 32, h.number);
    BigAt(b, 36, h.previousLength);
  }

  /** Reading a header, for any bytes: two bits of the flags byte decide what follows, the others are ignored. */
  lemma HeaderRead(b: Bytes)
    ensures var r := MessageFormat.DecodeHeader(b);
            && (r.Err? ==> r == Err(Serialization))
            && (r.Ok? <==>
                  && 41 <= |b|
                  && 41 + (if b[40] % 2 == 1 then 1088 else 0) + (if b[40] / 2 % 2 == 1 then 1184 else 0) <= |b|)
            && (r.Ok? ==>
                  var i := 41 + if b[40] % 2 == 1 then 1088 else 0;
                  && r.value.dhPublic == b[..32] && r.value.number == BigU32(b, 32)
                  && r.value.previousLength == BigU32(b, 36)
                  && r.value.kemCiphertext == (if b[40] % 2 == 1 then Some(b[41..i]) else None)
                  && r.value.kemPublic == (if b[40] / 2 % 2 == 1 then Some(b[i..i + 1184]) else None))
  {
    hide BigU32, FromBigEndian;
    if 41 <= |b| {
      BigRead(b, 32);
      BigRead(b, 36);
      var i := 41 + if b[40] % 2 == 1 then 1088 else 0;
      var rest := b[41..];
      if i <= |b| {
        assert rest[..i - 41] == b[41..i] && rest[i - 41..] == b[i..];
        if i + 1184 <= |b| {
          assert b[i..][..1184] == b[i..i + 1184];
        }
      }
    }
  }

  lemma BigRead(b: Bytes, i: nat)
    requires i + 4 <= |b|
    ensures FromBigEndian(b[i..i + 4]) == BigU32(b, i)
  {
    hide FromBigEndian;
    BigEndianValue(b[i..i + 4]);
  }

  /** Each part with its length in front and its nonce behind, the header first. */
  lemma EncryptedLayout(m: MessageFormat.Encrypted)
    requires MessageFormat.EncryptedOk(m)
    ensures MessageFormat.EncodeMessage(m).Ok?
    ensures var b, n := MessageFormat.EncodeMessage(m).value, |m.header|;
            && |b| == 4 + n + 12 + 4 + |m.body| + 12
            && BigU32(b, 0) == n && b[4..4 + n] == m.header && b[4 + n..16 + n] == m.headerNonce
            && BigU32(b, 16 + n) == |m.body| && b[20 + n..20 + n + |m.body|] == m.body
            && b[20 + n + |m.body|..] == m.bodyNonce
  {
    hide BigEndian, BigU32;
    var b, n := MessageFormat.EncodeMessage(m).value, |m.header|;
    assert b[0..4] == BigEndian(n, 4) && b[16 + n..20 + n] == BigEndian(|m.body|, 4);
    BigAt(b, 0, n);
    BigAt(b, 16 + n, |m.body|);
  }

  // ---------------------------------------------------------------
  // The bundle and the init message
  // ---------------------------------------------------------------

  lemma SignedLayout(p: SignedPublic)
    requires SignedOk(p)
    ensures var b := EncodeSigned(p);
            && |b| == 3353 && b[..4] == LittleEndian(p.id, 4) && b[4..36] == p.publicKey
            && b[36..3345] == p.signature && b[3345..] == LittleEndian(p.timestamp, 8)
  {
    hide LittleEndian;
    FiveParts(LittleEndian(p.id, 4), p.publicKey, p.signature, LittleEndian(p.timestamp, 8), []);
    assert EncodeSigned(p) + [] == EncodeSigned(p);
    var b := EncodeSigned(p);
    assert b[3345..] == b[3345..3353];
  }

  lemma KemLayout(p: KemPublic)
    requires KemOk(p)
    ensures var b := EncodeKem(p);
            |b| == 4497 && b[..4] == LittleEndian(p.id, 4) && b[4..1188] == p.publicKey && b[1188..] == p.signature
  {
    hide LittleEndian;
    Parts(LittleEndian(p.id, 4), p.publicKey, p.signature);
  }

  /** Identity, signed pre-key, KEM pre-key, each at its place. */
  lemma BundleLayout(b: Bundle)
    requires BundleOk(b)
    ensures var e := EncodeBundle(b);
            && |e| == (if b.oneTime.Some? then 9871 else 9835)
            && e[..1952] == b.identity.verifying && e[1952..1984] == b.identity.dhPublic
            && LittleU32(e, 1984) == b.signed.id && e[1988..2020] == b.signed.publicKey
            && e[2020..5329] == b.signed.signature && LittleU64(e, 5329) == b.signed.timestamp
            && LittleU32(e, 5337) == b.kem.id && e[5341..6525] == b.kem.publicKey
            && e[6525..9834] == b.kem.signature && e[9834] == (if b.oneTime.Some? then 1 else 0)
            && (b.oneTime.Some? ==> LittleU32(e, 9835) == b.oneTime.value.id && e[9839..] == b.oneTime.value.publicKey)
  {
    hide LittleEndian, LittleU32, LittleU64, EncodeSigned, EncodeKem;
    var e := EncodeBundle(b);
    var x, y, z, w := EncodeIdentity(b.identity), EncodeSigned(b.signed), EncodeKem(b.kem), EncodeOptional(b.oneTime);
    SignedLayout(b.signed);
    KemLayout(b.kem);
    FiveParts(x, y, z, w, []);
    assert e + [] == e && e[9834..] == w;
    SignedFields(b, e);
    KemFields(b, e);
    assert e[..1984] == x && e[..1952] == x[..1952] && e[1952..1984] == x[1952..];
    if b.oneTime.Some? {
      assert e[9835..9839] == w[1..5] && e[9839..] == w[5..];
      LittleAt(e, 9835, b.oneTime.value.id);
    }
  }

  lemma SignedFields(b: Bundle, e: Bytes)
    requires BundleOk(b) && |e| >= 9835 && |EncodeSigned(b.signed)| == 3353 && e[1984..5337] == EncodeSigned(b.signed)
    ensures LittleU32(e, 1984) == b.signed.id && e[1988..2020] == b.signed.publicKey
    ensures e[2020..5329] == b.signed.signature && LittleU64(e, 5329) == b.signed.timestamp
  {
    hide LittleEndian, LittleU32, LittleU64, EncodeSigned;
    SignedLayout(b.signed);
    var y := EncodeSigned(b.signed);
    assert e[1984..1988] == y[..4] && e[1988..2020] == y[4..36] && e[2020..5329] == y[36..3345];
    assert e[5329..5337] == y[3345..];
    LittleAt(e, 1984, b.signed.id);
    LittleAt(e, 5329, b.signed.timestamp);
  }

  lemma KemFields(b: Bundle, e: Bytes)
    requires BundleOk(b) && |e| >= 9835 && |EncodeKem(b.kem)| == 4497 && e[5337..9834] == EncodeKem(b.kem)
    ensures LittleU32(e, 5337) == b.kem.id && e[5341..6525] == b.kem.publicKey && e[6525..9834] == b.kem.signature
  {
    hide LittleEndian, LittleU32, EncodeKem;
    KemLayout(b.kem);
    var y := EncodeKem(b.kem);
    assert e[5337..5341] == y[..4] && e[5341..6525] == y[4..1188] && e[6525..9834] == y[1188..];
    LittleAt(e, 5337, b.kem.id);
  }

  /** A little-endian integer read from a field. */
  lemma LittleRead(b: Bytes, i: nat)
    ensures i + 4 <= |b| ==> FromLittleEndian(b[i..i + 4]) == LittleU32(b, i)
    ensures i + 8 <= |b| ==> FromLittleEndian(b[i..i + 8]) == LittleU64(b, i)
  {
    hide FromLittleEndian;
    if i + 4 <= |b| {
      LittleEndianValue(b[i..i + 4]);
    }
    if i + 8 <= |b| {
      var c := b[i..i + 8];
      LittleEndianValue(c);
      LittleEndianValue(c[..4]);
      LittleEndianValue(c[4..]);
    }
  }

  /**
   * Reading a bundle, for any bytes: which are refused and why, and where each field is taken from.
   * Any flag but 1 means no one-time key.
   */
  lemma BundleRead(s: Suite, b: Bytes)
    ensures DecodeBundle(s, b) == Err(Serialization) || DecodeBundle(s, b) == Err(Signature) || DecodeBundle(s, b).Ok?
    ensures DecodeBundle(s, b) == Err(Signature) <==>
              9835 <= |b| && (!SignatureDecodes(s, b[2020..5329]) || !SignatureDecodes(s, b[6525..9834]))
    ensures DecodeBundle(s, b).Ok? <==>
              && 9835 <= |b| && SignatureDecodes(s, b[2020..5329]) && SignatureDecodes(s, b[6525..9834])
              && (b[9834] == 1 ==> 9871 <= |b|)
    ensures DecodeBundle(s, b).Ok? ==>
              var r := DecodeBundle(s, b).value;
              && r.identity == IdentityPublic(b[..1952], b[1952..1984])
              && r.signed == SignedPublic(LittleU32(b, 1984), b[1988..2020], b[2020..5329], LittleU64(b, 5329))
              && r.kem == KemPublic(LittleU32(b, 5337), b[5341..6525], b[6525..9834])
              && r.oneTime
                 == (if b[9834] == 1 then Some(OneTimePublic(LittleU32(b, 9835), b[9839..9871])) else None)
  {
    hide LittleU32, LittleU64, FromLittleEndian;
    if 9835 <= |b| {
      LittleRead(b, 1984);
      LittleRead(b, 5329);
      LittleRead(b, 5337);
      var x, y := b[1984..5337], b[5337..9834];
      assert x[..4] == b[1984..1988] && x[4..36] == b[1988..2020];
      assert x[36..3345] == b[2020..5329] && x[3345..] == b[5329..5337];
      assert y[..4] == b[5337..5341] && y[4..1188] == b[5341..6525] && y[1188..] == b[6525..9834];
      assert b[..1984][..1952] == b[..1952] && b[..1984][1952..] == b[1952..1984];
      if 9871 <= |b| {
        LittleRead(b, 9835);
        var z := b[9834..][1..37];
        assert z[..4] == b[9835..9839] && z[4..] == b[9839..9871];
      }
    }
  }

  /** Reading an init message, for any bytes: the ciphertext must have its one length. */
  lemma InitRead(b: Bytes)
    ensures var i := if |b| > 3108 && b[3108] == 1 then 3113 else 3109;
            && (DecodeInit(b).Ok? <==> i + 8 <= |b| && LittleU32(b, 2016) == 1088)
            && (DecodeInit(b) == Err(Kem) <==>
                  2029 <= |b| && 2020 + LittleU32(b, 2016) <= |b| && LittleU32(b, 2016) != 1088)
            && (DecodeInit(b).Ok? ==>
                  var m := DecodeInit(b).value;
                  && m.sender == IdentityPublic(b[..1952], b[1952..1984]) && m.ephemeral == b[1984..2016]
                  && m.kemCiphertext == b[2020..3108]
                  && m.oneTimeId == (if b[3108] == 1 then Some(LittleU32(b, 3109)) else None)
                  && m.signedId == LittleU32(b, i) && m.kemId == LittleU32(b, i + 4))
  {
    hide LittleU32, FromLittleEndian;
    if 2029 <= |b| {
      LittleRead(b, 2016);
      assert b[..1984][..1952] == b[..1952] && b[..1984][1952..] == b[1952..1984];
      if LittleU32(b, 2016) == 1088 && 3108 <= |b| {
        IdsRead(b);
      }
    }
  }

  lemma IdsRead(b: Bytes)
    requires 3108 <= |b|
    ensures var i := if |b| > 3108 && b[3108] == 1 then 3113 else 3109;
            && (DecodeIds(b[3108..]).Ok? <==> i + 8 <= |b|)
            && (DecodeIds(b[3108..]).Err? ==> DecodeIds(b[3108..]) == Err(Serialization))
            && (DecodeIds(b[3108..]).Ok? ==>
                  DecodeIds(b[3108..]).value
                  == (if b[3108] == 1 then Some(LittleU32(b, 3109)) else None, LittleU32(b, i), LittleU32(b, i + 4)))
  {
    hide LittleU32, FromLittleEndian;
    var c := b[3108..];
    if 3117 <= |b| {
      LittleRead(b, 3109);
      LittleRead(b, 3113);
      assert c[1..5] == b[3109..3113] && c[5..9] == b[3113..3117];
    }
    if 3121 <= |b| {
      LittleRead(b, 3117);
      assert c[9..13] == b[3117..3121];
    }
  }

  /** Reading a protocol message, for any bytes: the first byte decides. */
  lemma TagsRead(s: Suite, b: Bytes)
    ensures b == [] || b[0] > 3 ==> KeyExchange.DecodeMessage(s, b) == Err(Serialization)
    ensures b != [] && b[0] == 0 ==> KeyExchange.DecodeMessage(s, b) == Ok(RequestBundle)
    ensures b != [] && b[0] == 1 ==>
              var r := KeyExchange.DecodeMessage(s, b);
              if DecodeBundle(s, b[1..]).Ok? then r == Ok(BundleMessage(DecodeBundle(s, b[1..]).value))
              else r == Err(DecodeBundle(s, b[1..]).error)
    ensures b != [] && b[0] == 2 ==>
              var r := KeyExchange.DecodeMessage(s, b);
              if DecodeInit(b[1..]).Ok? then r == Ok(InitMessage(DecodeInit(b[1..]).value))
              else r == Err(DecodeInit(b[1..]).error)
    ensures b != [] && b[0] == 3 ==> KeyExchange.DecodeMessage(s, b) == Ok(Complete)
  {
    hide DecodeBundle, DecodeInit;
  }

  /** Identity, ephemeral key, ciphertext with its length, then the ids of the pre-keys used. */
  lemma InitLayout(m: Init)
    requires InitOk(m)
    ensures var b := EncodeInit(m);
            var i := if m.oneTimeId.Some? then 3113 else 3109;
            && |b| == i + 8
            && b[..1952] == m.sender.verifying && b[1952..1984] == m.sender.dhPublic && b[1984..2016] == m.ephemeral
            && LittleU32(b, 2016) == 1088 && b[2020..3108] == m.kemCiphertext
            && b[3108] == (if m.oneTimeId.Some? then 1 else 0)
            && (m.oneTimeId.Some? ==> LittleU32(b, 3109) == m.oneTimeId.value)
            && LittleU32(b, i) == m.signedId && LittleU32(b, i + 4) == m.kemId
  {
    hide LittleEndian, LittleU32;
    var b, i := EncodeInit(m), if m.oneTimeId.Some? then 3113 else 3109;
    var x, ids := EncodeIdentity(m.sender), EncodeIds(m.oneTimeId, m.signedId, m.kemId);
    FiveParts(x, m.ephemeral, LittleEndian(1088, 4), m.kemCiphertext, ids);
    assert b[..1952] == x[..1952] && b[1952..1984] == x[1952..];
    assert b[3108..] == ids;
    LittleAt(b, 2016, 1088);
    if m.oneTimeId.Some? {
      assert b[3109..3113] == ids[1..5] == LittleEndian(m.oneTimeId.value, 4);
      LittleAt(b, 3109, m.oneTimeId.value);
    }
    assert b[i..i + 4] == ids[i - 3108..i - 3104] == LittleEndian(m.signedId, 4);
    assert b[i + 4..i + 8] == ids[i - 3104..] == LittleEndian(m.kemId, 4);
    LittleAt(b, i, m.signedId);
    LittleAt(b, i + 4, m.kemId);
  }

  /** The first byte tells the four protocol messages apart. */
  lemma MessageTags(m: Message)
    ensures EncodeMessage(m) != []
    ensures EncodeMessage(m)[0] == match m
                                   case RequestBundle => 0
                                   case BundleMessage(_) => 1
                                   case InitMessage(_) => 2
                                   case Complete => 3
    ensures m.BundleMessage? ==> EncodeMessage(m)[1..] == EncodeBundle(m.bundle)
    ensures m.InitMessage? ==> EncodeMessage(m)[1..] == EncodeInit(m.init)
  {
  }

  // ---------------------------------------------------------------
  // STUN
  // ---------------------------------------------------------------

  /** Type, length, magic cookie, transaction, attributes; section 6 of RFC 5389. */
  lemma StunLayout(m: Stun.StunMessage)
    requires Stun.StunOk(m)
    ensures var b, attrs := Stun.ToBytes(m), Stun.EncodeAttributes(m.attributes, m.transactionId);
            && |b| == 20 + |attrs| && BigU16(b, 0) == m.kind && BigU16(b, 2) == |attrs| % 0x1_0000
            && b[4..8] == [0x21, 0x12, 0xA4, 0x42] && b[8..20] == m.transactionId && b[20..] == attrs
  {
    hide BigEndian, BigU16, Stun.EncodeAttributes;
    var b, attrs := Stun.ToBytes(m), Stun.EncodeAttributes(m.attributes, m.transactionId);
    var kind, len := BigEndian(m.kind, 2), BigEndian(|attrs| % U16, 2);
    FiveParts(kind, len, BigEndian(Stun.MAGIC_COOKIE, 4), m.transactionId, attrs);
    assert b[0..2] == kind;
    BigAt(b, 0, m.kind);
    BigAt(b, 2, |attrs| % U16);
    Stun.CookieBytes();
  }

  /** Type, length, value, zeros up to a multiple of four; section 15 of RFC 5389. */
  lemma AttributeLayout(a: Stun.Attribute, tid: Bytes)
    requires Stun.AttributeOk(a) && |tid| == 12
    ensures var b, value := Stun.EncodeAttribute(a, tid), Stun.AttributeValue(a, tid);
            && 4 + |value| <= |b| < 8 + |value| && |b| % 4 == 0
            && BigU16(b, 0) == (if a.XorMappedAddress? then 0x0020 else if a.MappedAddress? then 0x0001 else a.kind)
            && BigU16(b, 2) == |value| % 0x1_0000 && b[4..4 + |value|] == value
            && b[4 + |value|..] == Zeros(|b| - 4 - |value|)
  {
    hide BigEndian, BigU16, Stun.AttributeValue, Stun.Padding, Stun.Padded, Zeros;
    var b, value := Stun.EncodeAttribute(a, tid), Stun.AttributeValue(a, tid);
    var kind, len := BigEndian(Stun.AttributeType(a), 2), BigEndian(|value| % U16, 2);
    Parts(kind + len, value, Zeros(Stun.Padding(|value|)));
    assert b[0..2] == kind && b[2..4] == len;
    BigAt(b, 0, Stun.AttributeType(a));
    BigAt(b, 2, |value| % U16);
  }

  /** Reading an attribute, for any bytes: its padding is skipped, as far as there is any. */
  lemma AttributeRead(b: Bytes, tid: Bytes)
    requires 4 <= |b| && |tid| == 12
    ensures var r, kind, n := Stun.ParseAttribute(b, tid), BigU16(b, 0), BigU16(b, 2);
            && (r.Ok? <==> 4 + n <= |b| && Stun.ParseValue(kind, b[4..4 + n], tid).Ok?)
            && (r.Ok? ==>
                  && Ok(r.value.0) == Stun.ParseValue(kind, b[4..4 + n], tid)
                  && r.value.1 == (if 4 + Stun.Padded(n) <= |b| then b[4 + Stun.Padded(n)..] else [])
                  && (kind != 0x0020 && kind != 0x0001 ==> r.value.0 == Stun.Unknown(kind, b[4..4 + n])))
  {
    hide FromBigEndian, Stun.Padded;
    BigEndianValue(b[0..2]);
    BigEndianValue(b[2..4]);
    assert b[..2] == b[0..2];
  }

  /** A plain address: zero, the family, the port, the octets. */
  lemma AddressLayout(a: Address)
    requires AddressOk(a)
    ensures var b := Stun.EncodeAddress(a);
            && |b| == 4 + |a.ip.octets| && b[0] == 0 && b[1] == (if a.ip.V4? then 1 else 2)
            && BigU16(b, 2) == a.port && b[4..] == a.ip.octets
  {
    hide BigEndian, BigU16;
    var b := Stun.EncodeAddress(a);
    assert b[2..4] == BigEndian(a.port, 2);
    BigAt(b, 2, a.port);
  }

  /**
   * Reading a STUN message, for any bytes: exactly those with the magic cookie, the two top bits of the
   * type clear, no more announced than there is, and attributes that parse.
   */
  lemma StunRead(b: Bytes)
    ensures var r := Stun.FromBytes(b);
            && (r.Ok? <==>
                  && 20 <= |b| && b[4..8] == [0x21, 0x12, 0xA4, 0x42] && b[0] < 0x40 && 20 + BigU16(b, 2) <= |b|
                  && Stun.ParseAttributes(b[20..20 + BigU16(b, 2)], b[8..20]).Ok?)
            && (r.Ok? ==>
                  && r.value.kind == BigU16(b, 0) && r.value.transactionId == b[8..20]
                  && Ok(r.value.attributes) == Stun.ParseAttributes(b[20..20 + BigU16(b, 2)], b[8..20]))
  {
    hide FromBigEndian, BigEndian, Stun.ParseAttributes;
    if 20 <= |b| {
      BigEndianValue(b[0..2]);
      BigEndianValue(b[2..4]);
      assert b[..2] == b[0..2];
      CookieRead(b[4..8]);
    }
  }

  lemma CookieRead(c: Bytes)
    requires |c| == 4
    ensures FromBigEndian(c) == Stun.MAGIC_COOKIE <==> c == [0x21, 0x12, 0xA4, 0x42]
  {
    hide FromBigEndian, BigEndian;
    Stun.CookieBytes();
    BigEndianOfBytes(c);
    WireIntegers(Stun.MAGIC_COOKIE);
  }

  /** Reading a plain address, for any bytes. */
  lemma AddressRead(b: Bytes)
    ensures var r := Stun.ParseAddress(b);
            && (r.Ok? <==> 4 <= |b| && ((b[1] == 1 && 8 <= |b|) || (b[1] == 2 && 20 <= |b|)))
            && (r.Ok? ==>
                  && r.value.port == BigU16(b, 2)
                  && r.value.ip == (if b[1] == 1 then V4(b[4..8]) else V6(b[4..20])))
  {
    hide FromBigEndian;
    if 4 <= |b| {
      BigEndianValue(b[2..4]);
    }
  }

  // ---------------------------------------------------------------
  // The candidate line
  // ---------------------------------------------------------------

  /** The eight fields of a line, in this order, numbers in decimal. */
  lemma SdpLayout(x: IpText, c: Candidate)
    requires IpLaw(x) && InRange(c) && IsWord(c.foundation)
    ensures var fields := SplitWhitespace(ToSdp(x, c));
            && |fields| == 8 && fields[0] == c.foundation && fields[2] == "udp" && fields[6] == "typ"
            && DigitsValue(fields[1]) == Some(c.component) && DigitsValue(fields[3]) == Some(c.priority)
            && fields[4] == x.show(c.address.ip) && DigitsValue(fields[5]) == Some(c.address.port)
            && fields[7] == (if c.kind == Host then "host" else if c.kind == ServerReflexive then "srflx" else "relay")
  {
    hide Decimal, DigitsValue, IsSpace, SplitWhitespace;
    FieldsOfCandidate(x, c);
    DecimalDigits(c.component);
    DecimalDigits(c.priority);
    DecimalDigits(c.address.port);
  }

  /** Reading a line, whatever it is: exactly which are candidates, and what each field is. */
  lemma SdpRead(x: IpText, line: string)
    ensures var r, p := FromSdp(x, line), SplitWhitespace(line);
            && (r.Ok? <==>
                  && |p| == 8 && p[2] == "udp" && p[6] == "typ" && x.parse(p[4]).Some?
                  && ParseUnsigned(p[1], 0x1_0000).Some? && ParseUnsigned(p[3], 0x1_0000_0000).Some?
                  && ParseUnsigned(p[5], 0x1_0000).Some? && p[7] in ["host", "srflx", "relay"])
            && (r.Ok? ==>
                  && r.value.foundation == p[0] && Some(r.value.component) == ParseUnsigned(p[1], 0x1_0000)
                  && Some(r.value.priority) == ParseUnsigned(p[3], 0x1_0000_0000)
                  && Some(r.value.address.ip) == x.parse(p[4])
                  && Some(r.value.address.port) == ParseUnsigned(p[5], 0x1_0000)
                  && r.value.kind
                     == (if p[7] == "host" then Host else if p[7] == "srflx" then ServerReflexive else Relay))
  {
    hide SplitWhitespace, ParseUnsigned;
  }

  /** Reading a number: digits below the bound, with or without a plus sign in front. */
  lemma UnsignedRead(s: string, bound: nat)
    requires s != "" && s[0] != '+'
    ensures ParseUnsigned(s, bound)
         == if DigitsValue(s).Some? && DigitsValue(s).value < bound then DigitsValue(s) else None
    ensures ParseUnsigned("+" + s, bound) == ParseUnsigned(s, bound)
    ensures ParseUnsigned("", bound).None? && ParseUnsigned("+", bound).None?
  {
    assert ("+" + s)[1..] == s;
  }

  /** The last character of a number counts one, the one before it ten. */
  lemma DecimalPlaces(high: string, c: char)
    requires DigitsValue(high).Some? && '0' <= c <= '9'
    ensures DigitsValue(high + [c]) == Some(10 * DigitsValue(high).value + (c as int - '0' as int))
  {
    assert (high + [c])[..|high|] == high;
  }
}
