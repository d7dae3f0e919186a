/** The wire format of ratchet headers and of encrypted messages. */
module MessageFormat {
  import opened Wrappers
  import opened Bytes
  import opened Primitives

  const NONCE_SIZE: nat := 12
  const HEADER_FIXED_LEN: nat := KEY_SIZE + 4 + 4 + 1

  /** `MessageHeader`. */
  datatype Header = Header(
    dhPublic: Bytes,
    number: nat,
    previousLength: nat,
    kemCiphertext: Option<Bytes>,
    kemPublic: Option<Bytes>
  )

  /** What the Rust types guarantee of every header. */
  predicate HeaderOk(h: Header) {
    && |h.dhPublic| == KEY_SIZE && h.number < U32 && h.previousLength < U32
    && (h.kemCiphertext.Some? ==> |h.kemCiphertext.value| == KEM_CIPHERTEXT_LEN)
    && (h.kemPublic.Some? ==> |h.kemPublic.value| == KEM_PUBLIC_KEY_LEN)
  }

  /** Bit 0: a KEM ciphertext follows. Bit 1: a KEM public key follows. */
  function Flags(h: Header): (f: Byte) {
    (if h.kemCiphertext.Some? then 1 else 0) + (if h.kemPublic.Some? then 2 else 0)
  }

  function OrEmpty(o: Option<Bytes>): (b: Bytes) {
    if o.Some? then o.value else []
  }

  function FixedPart(h: Header): (b: Bytes) {
    h.dhPublic + BigEndian(h.number, 4) + BigEndian(h.previousLength, 4) + [Flags(h)]
  }

  function EncodeHeader(h: Header): (b: Bytes) {
    FixedPart(h) + OrEmpty(h.kemCiphertext) + OrEmpty(h.kemPublic)
  }

  /** An optional field of a known length at the front of `b`. */
  function TakeOptional(b: Bytes, present: bool, len: nat): (r: Result<(Option<Bytes>, Bytes)>) {
    if !present then Ok((None, b))
    else if |b| < len then Err(Serialization)
    else Ok((Some(b[..len]), b[len..]))
  }

  function DecodeHeader(b: Bytes): (r: Result<Header>) {
    if |b| < HEADER_FIXED_LEN then Err(Serialization) else
      var flags := b[40];
      match TakeOptional(b[HEADER_FIXED_LEN..], flags % 2 == 1, KEM_CIPHERTEXT_LEN)
      case Err(e) => Err(e)
      case Ok((ciphertext, rest)) =>
        match TakeOptional(rest, flags / 2 % 2 == 1, KEM_PUBLIC_KEY_LEN)
        case Err(e) => Err(e)
        case Ok((publicKey, _)) =>
          Ok(Header(b[..32], FromBigEndian(b[32..36]), FromBigEndian(b[36..40]), ciphertext, publicKey))
  }

  lemma FixedPartFields(h: Header, tail: Bytes)
    requires HeaderOk(h)
    ensures var b := FixedPart(h) + tail;
            && |FixedPart(h)| == HEADER_FIXED_LEN
            && b[..32] == h.dhPublic && b[40] == Flags(h) && b[HEADER_FIXED_LEN..] == tail
            && FromBigEndian(b[32..36]) == h.number && FromBigEndian(b[36..40]) == h.previousLength
  {
    var n, l := BigEndian(h.number, 4), BigEndian(h.previousLength, 4);
    var b := FixedPart(h) + tail;
    WireIntegers(h.number);
    WireIntegers(h.previousLength);
    assert b[32..36] == n;
    assert b[36..40] == l;
  }

  /** Decoding inverts encoding for every flag combination, whatever follows the header. */
  lemma HeaderRoundTrip(h: Header, tail: Bytes)
    requires HeaderOk(h)
    ensures DecodeHeader(EncodeHeader(h) + tail) == Ok(h)
  {
    var ct, pk := OrEmpty(h.kemCiphertext), OrEmpty(h.kemPublic);
    FixedPartFields(h, ct + pk + tail);
    assert EncodeHeader(h) + tail == FixedPart(h) + (ct + pk + tail);
    Parts([], ct, pk + tail);
    Parts([], pk, tail);
    assert ct + pk + tail == [] + ct + (pk + tail);
    assert pk + tail == [] + pk + tail;
  }

  /**
   * The other direction: what decodes re-encodes to the bytes it was read from, exactly when the
   * six unused bits of the flags byte are clear. The decoder ignores those bits.
   */
  lemma HeaderReencodes(b: Bytes)
    requires DecodeHeader(b).Ok?
    ensures HeaderOk(DecodeHeader(b).value)
    ensures EncodeHeader(DecodeHeader(b).value) <= b <==> b[40] < 4
  {
    var h := DecodeHeader(b).value;
    BigEndianOfBytes(b[32..36]);
    BigEndianOfBytes(b[36..40]);
    Pow256Values();
    var n1 := if h.kemCiphertext.Some? then KEM_CIPHERTEXT_LEN else 0;
    var n2 := if h.kemPublic.Some? then KEM_PUBLIC_KEY_LEN else 0;
    assert Flags(h) == b[40] % 4;
    assert EncodeHeader(h)[40] == Flags(h);
    assert OrEmpty(h.kemCiphertext) == b[HEADER_FIXED_LEN..HEADER_FIXED_LEN + n1];
    assert OrEmpty(h.kemPublic) == b[HEADER_FIXED_LEN + n1..HEADER_FIXED_LEN + n1 + n2];
    if b[40] < 4 {
      assert FixedPart(h) == b[..HEADER_FIXED_LEN];
      assert EncodeHeader(h) == b[..HEADER_FIXED_LEN + n1 + n2];
    }
  }

  /** `EncryptedMessage`. */
  datatype Encrypted = Encrypted(header: Bytes, headerNonce: Bytes, body: Bytes, bodyNonce: Bytes)

  predicate EncryptedOk(m: Encrypted) {
    && |m.headerNonce| == NONCE_SIZE && |m.bodyNonce| == NONCE_SIZE
    && |m.header| < U32 && |m.body| < U32
  }

  /** A length-prefixed field followed by its nonce. */
  function EncodeField(field: Bytes, nonce: Bytes): (b: Bytes)
    requires |field| < U32
  {
    BigEndian(|field|, 4) + field + nonce
  }

  /** `to_bytes`; lengths that do not fit a `u32` abort. */
  function EncodeMessage(m: Encrypted): (r: Result<Bytes>) {
    if |m.header| >= U32 || |m.body| >= U32 then Err(Panic)
    else Ok(EncodeField(m.header, m.headerNonce) + EncodeField(m.body, m.bodyNonce))
  }

  /** A length-prefixed field and its nonce at the front of `b`, and what follows. */
  function DecodeField(b: Bytes): (r: Result<(Bytes, Bytes, Bytes)>) {
    if |b| < 4 then Err(Serialization) else
      var len := FromBigEndian(b[..4]);
      if |b| < 4 + len || |b| < 4 + len + NONCE_SIZE then Err(Serialization)
      else Ok((b[4..4 + len], b[4 + len..4 + len + NONCE_SIZE], b[4 + len + NONCE_SIZE..]))
  }

  /** `from_bytes`; trailing bytes are ignored. */
  function DecodeMessage(b: Bytes): (r: Result<Encrypted>) {
    match DecodeField(b)
    case Err(e) => Err(e)
    case Ok((header, headerNonce, rest)) =>
      match DecodeField(rest)
      case Err(e) => Err(e)
      case Ok((body, bodyNonce, _)) => Ok(Encrypted(header, headerNonce, body, bodyNonce))
  }

  lemma FieldRoundTrip(field: Bytes, nonce: Bytes, tail: Bytes)
    requires |field| < U32 && |nonce| == NONCE_SIZE
    ensures DecodeField(EncodeField(field, nonce) + tail) == Ok((field, nonce, tail))
  {
    var len := BigEndian(|field|, 4);
    var b := EncodeField(field, nonce) + tail;
    WireIntegers(|field|);
    assert b[..4] == len;
    assert b[4..4 + |field|] == field;
    assert b[4 + |field|..4 + |field| + NONCE_SIZE] == nonce;
    assert b[4 + |field| + NONCE_SIZE..] == tail;
  }

  lemma FieldReencodes(b: Bytes)
    requires DecodeField(b).Ok?
    ensures var (field, nonce, rest) := DecodeField(b).value;
            |field| < U32 && |nonce| == NONCE_SIZE && EncodeField(field, nonce) + rest == b
  {
    BigEndianOfBytes(b[..4]);
    Pow256Values();
  }

  /** Decoding inverts encoding for all payload lengths below 2^32, whatever follows. */
  lemma MessageRoundTrip(m: Encrypted, tail: Bytes)
    requires EncryptedOk(m)
    ensures EncodeMessage(m).Ok? && DecodeMessage(EncodeMessage(m).value + tail) == Ok(m)
  {
    var first, second := EncodeField(m.header, m.headerNonce), EncodeField(m.body, m.bodyNonce);
    FieldRoundTrip(m.header, m.headerNonce, second + tail);
    FieldRoundTrip(m.body, m.bodyNonce, tail);
    assert first + second + tail == first + (second + tail);
  }

  /** Whatever decodes re-encodes to the very bytes it was read from. */
  lemma MessageReencodes(b: Bytes)
    requires DecodeMessage(b).Ok?
    ensures var m := DecodeMessage(b).value;
            EncryptedOk(m) && EncodeMessage(m).Ok? && EncodeMessage(m).value <= b
  {
    FieldReencodes(b);
    var (header, headerNonce, rest) := DecodeField(b).value;
    FieldReencodes(rest);
    var (body, bodyNonce, rest') := DecodeField(rest).value;
    assert b == EncodeField(header, headerNonce) + EncodeField(body, bodyNonce) + rest';
  }

  /** Encodings are prefix-free: one message's bytes never begin another's. */
  lemma MessagesPrefixFree(m: Encrypted, m': Encrypted)
    requires EncryptedOk(m) && EncryptedOk(m')
    requires EncodeMessage(m).value <= EncodeMessage(m').value
    ensures m == m'
  {
    hide EncodeField, DecodeMessage;
    var b, b' := EncodeMessage(m).value, EncodeMessage(m').value;
    MessageRoundTrip(m, b'[|b|..]);
    MessageRoundTrip(m', []);
    assert b' == b + b'[|b|..] && b' == b' + [];
  }

  // ---------------------------------------------------------------
  // The serialisers and parsers as written: a growing buffer, a moving position
  // ---------------------------------------------------------------

  method HeaderToBytes(h: Header) returns (buf: Bytes)
    ensures buf == EncodeHeader(h)
  {
    var flags := 0;
    if h.kemCiphertext.Some? { flags := flags + 1; }
    if h.kemPublic.Some? { flags := flags + 2; }
    buf := h.dhPublic;
    buf := buf + BigEndian(h.number, 4);
    buf := buf + BigEndian(h.previousLength, 4);
    buf := buf + [flags];
    if h.kemCiphertext.Some? { buf := buf + h.kemCiphertext.value; }
    if h.kemPublic.Some? { buf := buf + h.kemPublic.value; }
  }

  method HeaderFromBytes(bytes: Bytes) returns (r: Result<Header>)
    ensures r == DecodeHeader(bytes)
  {
    if |bytes| < HEADER_FIXED_LEN {
      return Err(Serialization);
    }
    var pos := 0;
    var dhPublic := bytes[pos..pos + KEY_SIZE];
    pos := pos + KEY_SIZE;
    var number := FromBigEndian(bytes[pos..pos + 4]);
    pos := pos + 4;
    var previousLength := FromBigEndian(bytes[pos..pos + 4]);
    pos := pos + 4;
    var flags := bytes[pos];
    pos := pos + 1;
    ghost var rest := bytes[pos..];
    var ciphertext, publicKey := None, None;
    if flags % 2 == 1 {
      if |bytes| < pos + KEM_CIPHERTEXT_LEN {
        return Err(Serialization);
      }
      ciphertext := Some(bytes[pos..pos + KEM_CIPHERTEXT_LEN]);
      assert bytes[pos..pos + KEM_CIPHERTEXT_LEN] == rest[..KEM_CIPHERTEXT_LEN];
      pos := pos + KEM_CIPHERTEXT_LEN;
      rest := rest[KEM_CIPHERTEXT_LEN..];
      assert rest == bytes[pos..];
    }
    if flags / 2 % 2 == 1 {
      if |bytes| < pos + KEM_PUBLIC_KEY_LEN {
        return Err(Serialization);
      }
      publicKey := Some(bytes[pos..pos + KEM_PUBLIC_KEY_LEN]);
      assert bytes[pos..pos + KEM_PUBLIC_KEY_LEN] == rest[..KEM_PUBLIC_KEY_LEN];
      pos := pos + KEM_PUBLIC_KEY_LEN;
    }
    r := Ok(Header(dhPublic, number, previousLength, ciphertext, publicKey));
  }

  method MessageFromBytes(bytes: Bytes) returns (r: Result<Encrypted>)
    ensures r == DecodeMessage(bytes)
  {
    var pos := 0;
    if |bytes| < pos + 4 {
      return Err(Serialization);
    }
    var headerLen := FromBigEndian(bytes[pos..pos + 4]);
    pos := pos + 4;
    if |bytes| < pos + headerLen {
      return Err(Serialization);
    }
    var header := bytes[pos..pos + headerLen];
    pos := pos + headerLen;
    if |bytes| < pos + NONCE_SIZE {
      return Err(Serialization);
    }
    var headerNonce := bytes[pos..pos + NONCE_SIZE];
    pos := pos + NONCE_SIZE;
    ghost var rest := bytes[pos..];
    if |bytes| < pos + 4 {
      return Err(Serialization);
    }
    var bodyLen := FromBigEndian(bytes[pos..pos + 4]);
    assert bytes[pos..pos + 4] == rest[..4];
    pos := pos + 4;
    if |bytes| < pos + bodyLen {
      return Err(Serialization);
    }
    var body := bytes[pos..pos + bodyLen];
    assert body == rest[4..4 + bodyLen];
    pos := pos + bodyLen;
    if |bytes| < pos + NONCE_SIZE {
      return Err(Serialization);
    }
    var bodyNonce := bytes[pos..pos + NONCE_SIZE];
    assert rest[4 + bodyLen..4 + bodyLen + NONCE_SIZE]
      == bytes[|bytes| - |rest|..][4 + bodyLen..4 + bodyLen + NONCE_SIZE] == bodyNonce;
    r := Ok(Encrypted(header, headerNonce, body, bodyNonce));
  }
}
