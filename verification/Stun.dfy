/** STUN messages: attributes with padding, XOR-ed addresses. */
module Stun {
  import opened Wrappers
  import opened Bytes
  import opened Ice

  const MAGIC_COOKIE: nat := 0x2112_A442
  const HEADER_SIZE: nat := 20
  const TRANSACTION_ID_SIZE: nat := 12
  const ATTR_MAPPED_ADDRESS: nat := 0x0001
  const ATTR_XOR_MAPPED_ADDRESS: nat := 0x0020
  const FAMILY_IPV4: Byte := 1
  const FAMILY_IPV6: Byte := 2

  datatype Attribute =
    | XorMappedAddress(address: Address)
    | MappedAddress(address: Address)
    | Unknown(kind: nat, value: Bytes)

  datatype StunMessage = StunMessage(kind: nat, transactionId: Bytes, attributes: seq<Attribute>)

  /** The ranges of the Rust types. */
  predicate AttributeOk(a: Attribute) {
    if a.Unknown? then a.kind < U16 else AddressOk(a.address)
  }

  ghost predicate StunOk(m: StunMessage) {
    && m.kind < U16 && |m.transactionId| == TRANSACTION_ID_SIZE
    && (forall i :: 0 <= i < |m.attributes| ==> AttributeOk(m.attributes[i]))
  }

  // ---------------------------------------------------------------
  // Exclusive or
  // ---------------------------------------------------------------

  /** Bitwise exclusive or of unsigned integers. */
  function Xor(a: nat, b: nat): (r: nat)
    decreases a + b
  {
    if a == 0 && b == 0 then 0 else (a % 2 + b % 2) % 2 + 2 * Xor(a / 2, b / 2)
  }

  lemma {:induction false} XorUndone(a: nat, b: nat)
    ensures Xor(Xor(a, b), b) == a
    decreases a + b
  {
    if a != 0 || b != 0 {
      XorUndone(a / 2, b / 2);
      assert Xor(a, b) / 2 == Xor(a / 2, b / 2) && Xor(a, b) % 2 == (a % 2 + b % 2) % 2;
      if Xor(a, b) == 0 && b == 0 {
        XorZero(a);
      }
    }
  }

  lemma {:induction false} XorZero(a: nat)
    ensures Xor(a, 0) == a
  {
    if a != 0 {
      XorZero(a / 2);
    }
  }

  function Pow2(k: nat): (p: nat)
    ensures p > 0
  {
    if k == 0 then 1 else 2 * Pow2(k - 1)
  }

  lemma {:induction false} XorBound(a: nat, b: nat, k: nat)
    requires a < Pow2(k) && b < Pow2(k)
    ensures Xor(a, b) < Pow2(k)
  {
    if k > 0 && (a != 0 || b != 0) {
      XorBound(a / 2, b / 2, k - 1);
    }
  }

  /** Bit k of a number: its parity after k halvings. */
  function Bit(n: nat, k: nat): (b: nat) {
    if k == 0 then n % 2 else Bit(n / 2, k - 1)
  }

  lemma XorHalf(a: nat, b: nat)
    ensures Xor(a, b) / 2 == Xor(a / 2, b / 2) && Xor(a, b) % 2 == (a % 2 + b % 2) % 2
  {
  }

  /** Bit k of the result is set exactly if it is set in one of the two and not in the other. */
  lemma {:induction false} XorBit(a: nat, b: nat, k: nat)
    ensures Bit(Xor(a, b), k) == (Bit(a, k) + Bit(b, k)) % 2
  {
    XorHalf(a, b);
    if k > 0 {
      hide Xor;
      XorBit(a / 2, b / 2, k - 1);
    }
  }

  /** The first k bits of a number, and the rest. */
  function Low(n: nat, k: nat): (r: nat) {
    if k == 0 then 0 else n % 2 + 2 * Low(n / 2, k - 1)
  }

  function High(n: nat, k: nat): (r: nat) {
    if k == 0 then n else High(n / 2, k - 1)
  }

  lemma {:induction false} XorSplit(a: nat, b: nat, k: nat)
    ensures High(Xor(a, b), k) == Xor(High(a, k), High(b, k)) && Low(Xor(a, b), k) == Xor(Low(a, k), Low(b, k))
  {
    if k > 0 {
      XorHalf(a, b);
      XorHalf(Low(a, k), Low(b, k));
      hide Xor;
      XorSplit(a / 2, b / 2, k - 1);
      LowHalf(a, k);
      LowHalf(b, k);
    } else {
    }
  }

  lemma LowHalf(n: nat, k: nat)
    requires 0 < k
    ensures Low(n, k) / 2 == Low(n / 2, k - 1) && Low(n, k) % 2 == n % 2
  {
    var low := Low(n / 2, k - 1);
  }

  lemma {:induction false} SplitParts(n: nat, k: nat)
    ensures n == High(n, k) * Pow2(k) + Low(n, k) && Low(n, k) < Pow2(k)
  {
    if k > 0 {
      SplitParts(n / 2, k - 1);
      Doubled(High(n, k), Pow2(k - 1));
    }
  }

  lemma Doubled(h: nat, p: nat)
    ensures h * (2 * p) == 2 * (h * p)
  {
  }

  lemma ByteSplit(n: nat)
    ensures Low(n, 8) == n % 256 && High(n, 8) == n / 256
  {
    hide Low, High;
    Widths();
    SplitParts(n, 8);
  }

  lemma Widths()
    ensures Pow2(8) == 256 && Pow2(16) == U16 && Pow2(32) == U32
  {
    assert Pow2(4) == 16 && Pow2(8) == 256;
    assert Pow2(12) == 4096 && Pow2(16) == U16;
    assert Pow2(20) == 16 * U16 && Pow2(24) == 256 * U16;
    assert Pow2(28) == 4096 * U16 && Pow2(32) == U32;
  }

  /** For the widths in use: the result fits, and applying the mask twice is the identity. */
  lemma XorWidths(a: nat, b: nat)
    ensures a < 256 && b < 256 ==> Xor(a, b) < 256
    ensures a < U16 && b < U16 ==> Xor(a, b) < U16
    ensures a < U32 && b < U32 ==> Xor(a, b) < U32
    ensures Xor(Xor(a, b), b) == a
  {
    Widths();
    if a < 256 && b < 256 { XorBound(a, b, 8); }
    if a < U16 && b < U16 { XorBound(a, b, 16); }
    if a < U32 && b < U32 { XorBound(a, b, 32); }
    XorUndone(a, b);
  }

  function XorByte(a: Byte, b: Byte): (r: Byte) {
    XorWidths(a, b);
    Xor(a, b)
  }

  function XorBytes(data: Bytes, key: Bytes): (r: Bytes)
    requires |data| == |key|
    ensures |r| == |data|
  {
    seq(|data|, i requires 0 <= i < |data| => XorByte(data[i], key[i]))
  }

  lemma XorBytesUndone(data: Bytes, key: Bytes)
    requires |data| == |key|
    ensures XorBytes(XorBytes(data, key), key) == data
  {
    forall i | 0 <= i < |data| ensures XorBytes(XorBytes(data, key), key)[i] == data[i] {
      XorUndone(data[i], key[i]);
    }
  }

  // ---------------------------------------------------------------
  // Addresses
  // ---------------------------------------------------------------

  function XorPort(port: nat): (r: nat)
    ensures port < U16 ==> r < U16
  {
    XorWidths(port, MAGIC_COOKIE / U16);
    Xor(port, MAGIC_COOKIE / U16)
  }

  /** The mask of an IPv6 address. */
  function XorKey(tid: Bytes): (key: Bytes)
    requires |tid| == TRANSACTION_ID_SIZE
    ensures |key| == 16
  {
    BigEndian(MAGIC_COOKIE, 4) + tid
  }

  /** The first four bytes of an address value: a zero byte, the family, the port. */
  function AddressHead(ip: Ip, port: nat): (b: Bytes)
    ensures |b| == 4
  {
    [0, if ip.V4? then FAMILY_IPV4 else FAMILY_IPV6] + BigEndian(port, 2)
  }

  function EncodeAddress(a: Address): (b: Bytes) {
    AddressHead(a.ip, a.port) + a.ip.octets
  }

  function EncodeXorAddress(a: Address, tid: Bytes): (b: Bytes)
    requires IpOk(a.ip) && |tid| == TRANSACTION_ID_SIZE
  {
    AddressHead(a.ip, XorPort(a.port))
    + if a.ip.V4? then BigEndian(Xor(FromBigEndian(a.ip.octets), MAGIC_COOKIE), 4)
      else XorBytes(a.ip.octets, XorKey(tid))
  }

  /** `parse_mapped_address`; bytes behind the address are ignored. */
  function ParseAddress(data: Bytes): (r: Result<Address>)
    ensures r.Ok? ==> IpOk(r.value.ip) && 4 + |r.value.ip.octets| <= |data|
  {
    if |data| < 4 then Err(Error.Stun) else
      var port := FromBigEndian(data[2..4]);
      if data[1] == FAMILY_IPV4 then
        if |data| < 8 then Err(Error.Stun) else Ok(Address(V4(data[4..8]), port))
      else if data[1] == FAMILY_IPV6 then
        if |data| < 20 then Err(Error.Stun) else Ok(Address(V6(data[4..20]), port))
      else Err(Error.Stun)
  }

  /** `parse_xor_mapped_address`. */
  function ParseXorAddress(data: Bytes, tid: Bytes): (r: Result<Address>)
    requires |tid| == TRANSACTION_ID_SIZE
    ensures r.Ok? ==> IpOk(r.value.ip) && 4 + |r.value.ip.octets| <= |data|
  {
    if |data| < 4 then Err(Error.Stun) else
      var port := XorPort(FromBigEndian(data[2..4]));
      if data[1] == FAMILY_IPV4 then
        if |data| < 8 then Err(Error.Stun)
        else Ok(Address(V4(BigEndian(Xor(FromBigEndian(data[4..8]), MAGIC_COOKIE), 4)), port))
      else if data[1] == FAMILY_IPV6 then
        if |data| < 20 then Err(Error.Stun) else Ok(Address(V6(XorBytes(data[4..20], XorKey(tid))), port))
      else Err(Error.Stun)
  }

  lemma AddressRoundTrip(a: Address)
    requires AddressOk(a)
    ensures ParseAddress(EncodeAddress(a)) == Ok(a)
  {
    var b := EncodeAddress(a);
    WireIntegers(a.port);
    assert b[2..4] == BigEndian(a.port, 2) && b[4..] == a.ip.octets && b[4..|b|] == b[4..];
  }

  /** The mask comes off again, whatever the transaction. */
  lemma XorAddressRoundTrip(a: Address, tid: Bytes)
    requires AddressOk(a) && |tid| == TRANSACTION_ID_SIZE
    ensures ParseXorAddress(EncodeXorAddress(a, tid), tid) == Ok(a)
  {
    var b := EncodeXorAddress(a, tid);
    WireIntegers(XorPort(a.port));
    XorUndone(a.port, MAGIC_COOKIE / U16);
    assert b[2..4] == BigEndian(XorPort(a.port), 2);
    if a.ip.V4? {
      var n := FromBigEndian(a.ip.octets);
      BigEndianOfBytes(a.ip.octets);
      Pow256Values();
      XorWidths(n, MAGIC_COOKIE);
      WireIntegers(Xor(n, MAGIC_COOKIE));
      assert b[4..8] == BigEndian(Xor(n, MAGIC_COOKIE), 4);
    } else {
      XorBytesUndone(a.ip.octets, XorKey(tid));
      assert b[4..20] == XorBytes(a.ip.octets, XorKey(tid));
    }
  }

  // ---------------------------------------------------------------
  // The mask, octet by octet
  // ---------------------------------------------------------------

  /** The bytes an address is masked with: the magic cookie, then the transaction. */
  function Mask(tid: Bytes): (key: Bytes)
    requires |tid| == TRANSACTION_ID_SIZE
    ensures |key| == 16
  {
    [0x21, 0x12, 0xA4, 0x42] + tid
  }

  /** The octets of the one are those of the other with the mask over them, bit by bit. */
  ghost predicate Masked(plain: Bytes, masked: Bytes, mask: Bytes) {
    && |plain| == |masked| <= |mask|
    && forall i: nat, k: nat :: i < |plain| && k < 8 ==> Bit(masked[i], k) == (Bit(plain[i], k) + Bit(mask[i], k)) % 2
  }

  /** Masking an integer masks the bytes it is written with. */
  lemma {:induction false} XorBytesOf(a: nat, b: nat, w: nat)
    ensures BigEndian(Xor(a, b), w) == XorBytes(BigEndian(a, w), BigEndian(b, w))
  {
    if w > 0 {
      XorSplit(a, b, 8);
      ByteSplit(a);
      ByteSplit(b);
      ByteSplit(Xor(a, b));
      XorBytesOf(a / 256, b / 256, w - 1);
      var r := XorBytes(BigEndian(a, w), BigEndian(b, w));
      assert r[..w - 1] == XorBytes(BigEndian(a / 256, w - 1), BigEndian(b / 256, w - 1));
      assert r == r[..w - 1] + [r[w - 1]];
    }
  }

  lemma XorBytesMasked(data: Bytes, key: Bytes)
    requires |data| == |key|
    ensures Masked(data, XorBytes(data, key), key) && Masked(XorBytes(data, key), data, key)
  {
    hide Bit;
    forall i: nat, k: nat | i < |data| && k < 8
      ensures Bit(XorBytes(data, key)[i], k) == (Bit(data[i], k) + Bit(key[i], k)) % 2
      ensures Bit(data[i], k) == (Bit(XorBytes(data, key)[i], k) + Bit(key[i], k)) % 2
    {
      XorBit(data[i], key[i], k);
      XorBit(XorByte(data[i], key[i]), key[i], k);
      XorUndone(data[i], key[i]);
    }
  }

  lemma CookieBytes()
    ensures BigEndian(MAGIC_COOKIE, 4) == [0x21, 0x12, 0xA4, 0x42]
    ensures BigEndian(MAGIC_COOKIE / U16, 2) == [0x21, 0x12]
  {
    assert BigEndian(0x21, 1) == [0x21] && BigEndian(0x2112, 2) == [0x21, 0x12];
    assert BigEndian(0x2112A4, 3) == [0x21, 0x12, 0xA4];
  }

  lemma MaskedBy(plain: Bytes, masked: Bytes, key: Bytes, mask: Bytes)
    requires Masked(plain, masked, key) && key <= mask
    ensures Masked(plain, masked, mask)
  {
    hide Bit;
    assert forall i :: 0 <= i < |key| ==> key[i] == mask[i];
  }

  /** An integer and the integer masked, as they are written. */
  lemma MaskedInteger(n: nat, key: nat, w: nat, mask: Bytes)
    requires BigEndian(key, w) <= mask
    ensures Masked(BigEndian(n, w), BigEndian(Xor(n, key), w), mask)
    ensures Masked(BigEndian(Xor(n, key), w), BigEndian(n, w), mask)
  {
    hide Xor, Masked, BigEndian;
    XorBytesOf(n, key, w);
    XorBytesMasked(BigEndian(n, w), BigEndian(key, w));
    MaskedBy(BigEndian(n, w), BigEndian(Xor(n, key), w), BigEndian(key, w), mask);
    MaskedBy(BigEndian(Xor(n, key), w), BigEndian(n, w), BigEndian(key, w), mask);
  }

  /** The two bytes of a port, high byte first. */
  function PortBytes(port: nat): (b: Bytes)
    requires port < U16
  {
    [port / 256, port % 256]
  }

  lemma PortIs(port: nat)
    requires port < U16
    ensures BigEndian(port, 2) == PortBytes(port)
  {
    assert BigEndian(port / 256, 1) == BigEndian(port / 256 / 256, 0) + [port / 256 % 256];
  }

  /**
   * An encoded XOR-MAPPED-ADDRESS, octet by octet: zero, the family, the port masked with the first
   * two bytes of the magic cookie, the address masked with the cookie and the transaction.
   */
  lemma XorAddressLayout(a: Address, tid: Bytes)
    requires AddressOk(a) && |tid| == TRANSACTION_ID_SIZE
    ensures var b := EncodeXorAddress(a, tid);
            && |b| == 4 + |a.ip.octets| && b[0] == 0 && b[1] == (if a.ip.V4? then 1 else 2)
            && Masked(PortBytes(a.port), b[2..4], Mask(tid)) && Masked(a.ip.octets, b[4..], Mask(tid))
  {
    hide Xor, Masked, BigEndian, FromBigEndian;
    CookieBytes();
    PortIs(a.port);
    assert [0x21, 0x12] <= Mask(tid) && [0x21, 0x12, 0xA4, 0x42] <= Mask(tid);
    MaskedInteger(a.port, MAGIC_COOKIE / U16, 2, Mask(tid));
    var b := EncodeXorAddress(a, tid);
    assert b[2..4] == BigEndian(XorPort(a.port), 2);
    if a.ip.V4? {
      BigEndianOfBytes(a.ip.octets);
      MaskedInteger(FromBigEndian(a.ip.octets), MAGIC_COOKIE, 4, Mask(tid));
      assert b[4..] == BigEndian(Xor(FromBigEndian(a.ip.octets), MAGIC_COOKIE), 4);
    } else {
      XorBytesMasked(a.ip.octets, XorKey(tid));
      assert XorKey(tid) == Mask(tid);
      assert b[4..] == XorBytes(a.ip.octets, XorKey(tid));
    }
  }

  /** Whatever is read as XOR-MAPPED-ADDRESS: the port and the address come out unmasked, octet by octet. */
  lemma XorAddressRead(data: Bytes, tid: Bytes)
    requires |tid| == TRANSACTION_ID_SIZE
    ensures ParseXorAddress(data, tid).Ok? <==>
              4 <= |data| && ((data[1] == 1 && 8 <= |data|) || (data[1] == 2 && 20 <= |data|))
    ensures var r := ParseXorAddress(data, tid);
            r.Ok? ==>
              var n := if data[1] == 1 then 4 else 16;
              && r.value.port < U16 && r.value.ip.V4? == (data[1] == 1) && |r.value.ip.octets| == n
              && Masked(data[2..4], PortBytes(r.value.port), Mask(tid))
              && Masked(data[4..4 + n], r.value.ip.octets, Mask(tid))
  {
    hide Xor, Masked, BigEndian, FromBigEndian;
    if ParseXorAddress(data, tid).Ok? {
      var port := FromBigEndian(data[2..4]);
      CookieBytes();
      Pow256Values();
      BigEndianOfBytes(data[2..4]);
      PortIs(XorPort(port));
      assert [0x21, 0x12] <= Mask(tid) && [0x21, 0x12, 0xA4, 0x42] <= Mask(tid);
      MaskedInteger(port, MAGIC_COOKIE / U16, 2, Mask(tid));
      if data[1] == 1 {
        BigEndianOfBytes(data[4..8]);
        MaskedInteger(FromBigEndian(data[4..8]), MAGIC_COOKIE, 4, Mask(tid));
      } else {
        XorBytesMasked(data[4..20], XorKey(tid));
        assert XorKey(tid) == Mask(tid);
      }
    }
  }

  // ---------------------------------------------------------------
  // Attributes
  // ---------------------------------------------------------------

  function AttributeType(a: Attribute): (n: nat) {
    match a
    case XorMappedAddress(_) => ATTR_XOR_MAPPED_ADDRESS
    case MappedAddress(_) => ATTR_MAPPED_ADDRESS
    case Unknown(kind, _) => kind
  }

  function AttributeValue(a: Attribute, tid: Bytes): (b: Bytes)
    requires AttributeOk(a) && |tid| == TRANSACTION_ID_SIZE
  {
    match a
    case XorMappedAddress(address) => EncodeXorAddress(address, tid)
    case MappedAddress(address) => EncodeAddress(address)
    case Unknown(_, value) => value
  }

  function Padding(n: nat): (p: nat)
    ensures p < 4 && (n + p) % 4 == 0
  {
    (4 - n % 4) % 4
  }

  /** Bytes a value takes with its padding. */
  function Padded(n: nat): (p: nat)
    ensures n <= p <= n + 3 && p % 4 == 0 && p == n + Padding(n)
  {
    (n + 3) / 4 * 4
  }

  /** Type, length truncated to 16 bits, value, padding. */
  function EncodeAttribute(a: Attribute, tid: Bytes): (b: Bytes)
    requires AttributeOk(a) && |tid| == TRANSACTION_ID_SIZE
    ensures |b| == 4 + Padded(|AttributeValue(a, tid)|)
  {
    var value := AttributeValue(a, tid);
    BigEndian(AttributeType(a), 2) + BigEndian(|value| % U16, 2) + value + Zeros(Padding(|value|))
  }

  function EncodeAttributes(attrs: seq<Attribute>, tid: Bytes): (b: Bytes)
    requires |tid| == TRANSACTION_ID_SIZE && forall i :: 0 <= i < |attrs| ==> AttributeOk(attrs[i])
    decreases |attrs|
  {
    if attrs == [] then [] else EncodeAttribute(attrs[0], tid) + EncodeAttributes(attrs[1..], tid)
  }

  function ParseValue(kind: nat, value: Bytes, tid: Bytes): (r: Result<Attribute>)
    requires |tid| == TRANSACTION_ID_SIZE
  {
    if kind == ATTR_XOR_MAPPED_ADDRESS then
      match ParseXorAddress(value, tid)
      case Err(e) => Err(e)
      case Ok(a) => Ok(XorMappedAddress(a))
    else if kind == ATTR_MAPPED_ADDRESS then
      match ParseAddress(value)
      case Err(e) => Err(e)
      case Ok(a) => Ok(MappedAddress(a))
    else Ok(Unknown(kind, value))
  }

  /** One attribute off the front, and what is left; padding missing at the very end is tolerated. */
  function ParseAttribute(data: Bytes, tid: Bytes): (r: Result<(Attribute, Bytes)>)
    requires |tid| == TRANSACTION_ID_SIZE && 4 <= |data|
    ensures r.Ok? ==> |r.value.1| < |data|
  {
    var kind, len := FromBigEndian(data[..2]), FromBigEndian(data[2..4]);
    if 4 + len > |data| then Err(Error.Stun) else
      match ParseValue(kind, data[4..4 + len], tid)
      case Err(e) => Err(e)
      case Ok(a) => Ok((a, if 4 + Padded(len) <= |data| then data[4 + Padded(len)..] else []))
  }

  function ParseAttributes(data: Bytes, tid: Bytes): (r: Result<seq<Attribute>>)
    requires |tid| == TRANSACTION_ID_SIZE
    decreases |data|
  {
    if |data| < 4 then Ok([]) else
      match ParseAttribute(data, tid)
      case Err(e) => Err(e)
      case Ok((a, rest)) =>
        match ParseAttributes(rest, tid)
        case Err(e) => Err(e)
        case Ok(attrs) => Ok([a] + attrs)
  }

  /** An attribute of unknown type must not use the type of a known one. */
  predicate Tagged(a: Attribute) {
    a.Unknown? ==> a.kind != ATTR_MAPPED_ADDRESS && a.kind != ATTR_XOR_MAPPED_ADDRESS
  }

  lemma ValueRoundTrip(a: Attribute, tid: Bytes)
    requires AttributeOk(a) && |tid| == TRANSACTION_ID_SIZE && Tagged(a)
    ensures ParseValue(AttributeType(a), AttributeValue(a, tid), tid) == Ok(a)
  {
    hide EncodeAddress, EncodeXorAddress, ParseAddress, ParseXorAddress;
    match a
    case XorMappedAddress(address) => XorAddressRoundTrip(address, tid);
    case MappedAddress(address) => AddressRoundTrip(address);
    case Unknown(_, _) =>
  }

  /** Reading back the parts of an attribute. */
  lemma AttributeParts(kind: nat, value: Bytes, rest: Bytes)
    requires kind < U16 && |value| < U16
    ensures var data := BigEndian(kind, 2) + BigEndian(|value|, 2) + value + Zeros(Padding(|value|)) + rest;
            && |data| == 4 + Padded(|value|) + |rest|
            && FromBigEndian(data[..2]) == kind && FromBigEndian(data[2..4]) == |value|
            && data[4..4 + |value|] == value && data[4 + Padded(|value|)..] == rest
  {
    hide BigEndian, FromBigEndian;
    WireIntegers(kind);
    WireIntegers(|value|);
    FiveParts(BigEndian(kind, 2), BigEndian(|value|, 2), value, Zeros(Padding(|value|)), rest);
  }

  lemma AttributeRoundTrip(a: Attribute, tid: Bytes, rest: Bytes)
    requires AttributeOk(a) && |tid| == TRANSACTION_ID_SIZE && Tagged(a) && |AttributeValue(a, tid)| < U16
    ensures ParseAttribute(EncodeAttribute(a, tid) + rest, tid) == Ok((a, rest))
  {
    hide AttributeValue, ParseValue, BigEndian, FromBigEndian, Padded, Padding;
    ValueRoundTrip(a, tid);
    AttributeParts(AttributeType(a), AttributeValue(a, tid), rest);
  }

  lemma {:induction false} AttributesRoundTrip(attrs: seq<Attribute>, tid: Bytes)
    requires |tid| == TRANSACTION_ID_SIZE && forall i :: 0 <= i < |attrs| ==> AttributeOk(attrs[i]) && Tagged(attrs[i])
    requires |EncodeAttributes(attrs, tid)| < U16
    ensures ParseAttributes(EncodeAttributes(attrs, tid), tid) == Ok(attrs)
    decreases |attrs|
  {
    if attrs != [] {
      hide ParseAttribute, AttributeValue;
      AttributeRoundTrip(attrs[0], tid, EncodeAttributes(attrs[1..], tid));
      AttributesRoundTrip(attrs[1..], tid);
      assert attrs == [attrs[0]] + attrs[1..];
    }
  }

  // ---------------------------------------------------------------
  // Messages
  // ---------------------------------------------------------------

  function ToBytes(m: StunMessage): (b: Bytes)
    requires StunOk(m)
  {
    var attrs := EncodeAttributes(m.attributes, m.transactionId);
    BigEndian(m.kind, 2) + BigEndian(|attrs| % U16, 2) + BigEndian(MAGIC_COOKIE, 4) + m.transactionId + attrs
  }

  function FromBytes(data: Bytes): (r: Result<StunMessage>) {
    if |data| < HEADER_SIZE then Err(Error.Stun) else
      var kind, len := FromBigEndian(data[..2]), FromBigEndian(data[2..4]);
      if FromBigEndian(data[4..8]) != MAGIC_COOKIE then Err(Error.Stun)
      else if kind >= 0x4000 then Err(Error.Stun)
      else if |data| < HEADER_SIZE + len then Err(Error.Stun)
      else
        match ParseAttributes(data[HEADER_SIZE..HEADER_SIZE + len], data[8..20])
        case Err(e) => Err(e)
        case Ok(attrs) => Ok(StunMessage(kind, data[8..20], attrs))
  }

  /** The messages that survive the wire. */
  ghost predicate Encodable(m: StunMessage)
    requires StunOk(m)
  {
    && m.kind < 0x4000
    && |EncodeAttributes(m.attributes, m.transactionId)| < U16
    && (forall i :: 0 <= i < |m.attributes| ==> Tagged(m.attributes[i]))
  }

  /** The layout of a message: fields of 2, 2, 4 and 12 bytes, then the rest. */
  lemma Layout(kind: Bytes, len: Bytes, cookie: Bytes, tid: Bytes, rest: Bytes, n: nat)
    requires |kind| == 2 && |len| == 2 && |cookie| == 4 && |tid| == 12 && n <= |rest|
    ensures var data := kind + len + cookie + tid + rest;
            && |data| == HEADER_SIZE + |rest| && data[..2] == kind && data[2..4] == len && data[4..8] == cookie
            && data[8..20] == tid && data[HEADER_SIZE..HEADER_SIZE + n] == rest[..n]
  {
    FiveParts(kind, len, cookie, tid, rest);
    var data := kind + len + cookie + tid + rest;
    assert data[HEADER_SIZE..HEADER_SIZE + n] == data[HEADER_SIZE..][..n];
  }

  /** The header fields read from `data`, and the first `len` bytes that follow it. */
  ghost predicate HeaderReads(data: Bytes, kind: nat, len: nat, tid: Bytes, value: Bytes) {
    && HEADER_SIZE + len <= |data|
    && FromBigEndian(data[..2]) == kind && FromBigEndian(data[2..4]) == len
    && FromBigEndian(data[4..8]) == MAGIC_COOKIE && data[8..20] == tid
    && data[HEADER_SIZE..HEADER_SIZE + len] == value
  }

  /** The header of a message whose attribute bytes are given, with the length it states. */
  lemma HeaderBytes(kind: nat, len: nat, tid: Bytes, attrs: Bytes, tail: Bytes)
    requires kind < U16 && len < U16 && len <= |attrs| && |tid| == TRANSACTION_ID_SIZE
    ensures var data := BigEndian(kind, 2) + BigEndian(len, 2) + BigEndian(MAGIC_COOKIE, 4) + tid + attrs + tail;
            |data| == HEADER_SIZE + |attrs| + |tail| && HeaderReads(data, kind, len, tid, attrs[..len])
  {
    hide BigEndian, FromBigEndian;
    WireIntegers(kind);
    WireIntegers(len);
    WireIntegers(MAGIC_COOKIE);
    var a, b, c := BigEndian(kind, 2), BigEndian(len, 2), BigEndian(MAGIC_COOKIE, 4);
    Regrouped(a + b + c + tid, attrs, tail, len);
    Layout(a, b, c, tid, attrs + tail, len);
  }

  /** The attribute bytes the 16-bit length covers. */
  function Covered(attrs: Bytes): (b: Bytes) {
    attrs[..|attrs| % U16]
  }

  /** What the header of an encoded message says. */
  lemma HeaderParts(m: StunMessage, tail: Bytes)
    requires StunOk(m)
    ensures var attrs := EncodeAttributes(m.attributes, m.transactionId);
            var data := ToBytes(m) + tail;
            && |data| == HEADER_SIZE + |attrs| + |tail|
            && HeaderReads(data, m.kind, |attrs| % U16, m.transactionId, Covered(attrs))
  {
    hide EncodeAttributes, BigEndian, FromBigEndian, HeaderReads;
    var attrs := EncodeAttributes(m.attributes, m.transactionId);
    HeaderBytes(m.kind, |attrs| % U16, m.transactionId, attrs, tail);
  }

  lemma Regrouped(head: Bytes, attrs: Bytes, tail: Bytes, n: nat)
    requires n <= |attrs|
    ensures head + attrs + tail == head + (attrs + tail) && (attrs + tail)[..n] == attrs[..n]
  {
  }

  lemma Aligned(a: nat, b: nat)
    requires a % 4 == 0 && b % 4 == 0
    ensures (a + b) % 4 == 0
  {
  }

  /** The encoded attributes always take a multiple of 4 bytes. */
  lemma {:induction false} AttributesAligned(attrs: seq<Attribute>, tid: Bytes)
    requires |tid| == TRANSACTION_ID_SIZE && forall i :: 0 <= i < |attrs| ==> AttributeOk(attrs[i])
    ensures |EncodeAttributes(attrs, tid)| % 4 == 0
    decreases |attrs|
  {
    if attrs != [] {
      hide EncodeAttribute, AttributeValue;
      AttributesAligned(attrs[1..], tid);
      Aligned(4, Padded(|AttributeValue(attrs[0], tid)|));
      Aligned(|EncodeAttribute(attrs[0], tid)|, |EncodeAttributes(attrs[1..], tid)|);
    }
  }

  lemma EncodableSurvives(m: StunMessage, tail: Bytes)
    requires StunOk(m) && Encodable(m)
    ensures FromBytes(ToBytes(m) + tail) == Ok(m)
  {
    hide EncodeAttributes, ParseAttributes, ToBytes;
    var attrs := EncodeAttributes(m.attributes, m.transactionId);
    HeaderParts(m, tail);
    assert attrs[..|attrs|] == attrs;
    AttributesRoundTrip(m.attributes, m.transactionId);
  }

  /** What parses is well-formed and no longer, encoded again, than what was read. */
  lemma ValueFits(kind: nat, value: Bytes, tid: Bytes)
    requires kind < U16 && |tid| == TRANSACTION_ID_SIZE && ParseValue(kind, value, tid).Ok?
    ensures var a := ParseValue(kind, value, tid).value;
            AttributeOk(a) && Tagged(a) && |AttributeValue(a, tid)| <= |value|
  {
    hide Xor;
    if 4 <= |value| {
      BigEndianOfBytes(value[2..4]);
      Pow256Values();
    }
  }

  lemma PaddedGrows(n: nat, m: nat)
    requires n <= m
    ensures Padded(n) <= Padded(m)
  {
  }

  lemma AttributeFits(data: Bytes, tid: Bytes)
    requires |tid| == TRANSACTION_ID_SIZE && 4 <= |data| && ParseAttribute(data, tid).Ok?
    ensures var (a, rest) := ParseAttribute(data, tid).value;
            && AttributeOk(a) && Tagged(a)
            && (|EncodeAttribute(a, tid)| + |rest| <= |data| || (rest == [] && |EncodeAttribute(a, tid)| <= |data| + 3))
  {
    hide FromBigEndian, ParseValue, AttributeValue, AttributeOk, Tagged;
    var kind, len := FromBigEndian(data[..2]), FromBigEndian(data[2..4]);
    BigEndianOfBytes(data[..2]);
    Pow256Values();
    ValueFits(kind, data[4..4 + len], tid);
    PaddedGrows(|AttributeValue(ParseAttribute(data, tid).value.0, tid)|, len);
  }

  lemma {:induction false} AttributesFit(data: Bytes, tid: Bytes)
    requires |tid| == TRANSACTION_ID_SIZE && ParseAttributes(data, tid).Ok?
    ensures var attrs := ParseAttributes(data, tid).value;
            && (forall i :: 0 <= i < |attrs| ==> AttributeOk(attrs[i]) && Tagged(attrs[i]))
            && |EncodeAttributes(attrs, tid)| <= |data| + 3
    decreases |data|
  {
    if 4 <= |data| {
      hide ParseAttribute, EncodeAttribute;
      var (a, rest) := ParseAttribute(data, tid).value;
      AttributeFits(data, tid);
      AttributesFit(rest, tid);
      var attrs := ParseAttributes(rest, tid).value;
      assert ([a] + attrs)[1..] == attrs;
      assert ParseAttributes(data, tid).value == [a] + attrs;
    }
  }

  /**
   * The round trip, exactly: a message comes back from its bytes, whatever follows them, if and
   * only if the top two bits of its type are clear, its attributes take less than 2^16 bytes, and
   * none of unknown type uses a known type.
   */
  lemma RoundTrip(m: StunMessage, tail: Bytes)
    requires StunOk(m)
    ensures FromBytes(ToBytes(m) + tail) == Ok(m) <==> Encodable(m)
  {
    hide EncodeAttributes, ParseAttributes, ToBytes;
    if Encodable(m) {
      EncodableSurvives(m, tail);
    }
    if FromBytes(ToBytes(m) + tail) == Ok(m) {
      var attrs := EncodeAttributes(m.attributes, m.transactionId);
      HeaderParts(m, tail);
      AttributesFit(attrs[..|attrs| % U16], m.transactionId);
    }
  }

  // ---------------------------------------------------------------
  // The loops
  // ---------------------------------------------------------------

  method EncodeInto(attrs: seq<Attribute>, tid: Bytes) returns (buf: Bytes)
    requires |tid| == TRANSACTION_ID_SIZE && forall i :: 0 <= i < |attrs| ==> AttributeOk(attrs[i])
    ensures buf == EncodeAttributes(attrs, tid)
  {
    hide EncodeAttribute, EncodeAttributes, AttributeOk, AttributeValue, Padded, Padding, BigEndian;
    buf := [];
    assert attrs[0..] == attrs;
    for i := 0 to |attrs|
      invariant buf + EncodeAttributes(attrs[i..], tid) == EncodeAttributes(attrs, tid)
    {
      OneAttribute(attrs, tid, i, buf);
      buf := buf + EncodeAttribute(attrs[i], tid);
    }
    NoAttributes(tid);
    assert attrs[|attrs|..] == [];
  }

  lemma NoAttributes(tid: Bytes)
    requires |tid| == TRANSACTION_ID_SIZE
    ensures EncodeAttributes([], tid) == []
  {
  }

  lemma OneAttribute(attrs: seq<Attribute>, tid: Bytes, i: nat, buf: Bytes)
    requires |tid| == TRANSACTION_ID_SIZE && (forall j :: 0 <= j < |attrs| ==> AttributeOk(attrs[j])) && i < |attrs|
    ensures buf + EncodeAttribute(attrs[i], tid) + EncodeAttributes(attrs[i + 1..], tid)
         == buf + EncodeAttributes(attrs[i..], tid)
  {
    hide EncodeAttribute, AttributeOk;
    assert attrs[i..][1..] == attrs[i + 1..] && attrs[i..][0] == attrs[i];
  }

  function Prepend(attrs: seq<Attribute>, r: Result<seq<Attribute>>): (r': Result<seq<Attribute>>) {
    match r
    case Err(e) => Err(e)
    case Ok(rest) => Ok(attrs + rest)
  }

  /** What is left of the data at an offset, which may lie behind the end. */
  ghost function LeftAt(data: Bytes, offset: nat): (rest: Bytes) {
    if offset <= |data| then data[offset..] else []
  }

  method ParseAt(data: Bytes, tid: Bytes, start: nat) returns (r: Result<Attribute>, offset: nat)
    requires |tid| == TRANSACTION_ID_SIZE && start + 4 <= |data|
    ensures offset > start
    ensures ParseAttribute(data[start..], tid) == if r.Err? then Err(r.error) else Ok((r.value, LeftAt(data, offset)))
  {
    hide ParseValue, FromBigEndian;
    ghost var left := data[start..];
    var kind := FromBigEndian(data[start..start + 2]);
    var len := FromBigEndian(data[start + 2..start + 4]);
    assert left[..2] == data[start..start + 2] && left[2..4] == data[start + 2..start + 4];
    offset := start + 4;
    if offset + len > |data| {
      return Err(Error.Stun), offset;
    }
    assert left[4..4 + len] == data[offset..offset + len];
    r := ParseValue(kind, data[offset..offset + len], tid);
    offset := offset + Padded(len);
    assert offset <= |data| ==> left[4 + Padded(len)..] == data[offset..];
  }

  method ParseFrom(data: Bytes, tid: Bytes) returns (r: Result<seq<Attribute>>)
    requires |tid| == TRANSACTION_ID_SIZE
    ensures r == ParseAttributes(data, tid)
  {
    var attrs: seq<Attribute> := [];
    var offset := 0;
    assert data[0..] == data;
    PrependNothing(ParseAttributes(data, tid));
    while offset + 4 <= |data|
      invariant ParseAttributes(data, tid) == Prepend(attrs, ParseAttributes(LeftAt(data, offset), tid))
      decreases |data| - offset
    {
      hide ParseAttribute;
      ghost var left := data[offset..];
      var parsed, next := ParseAt(data, tid, offset);
      if parsed.Err? {
        return Err(parsed.error);
      }
      PrependStep(attrs, parsed.value, ParseAttributes(LeftAt(data, next), tid));
      assert ParseAttributes(left, tid) == Prepend([parsed.value], ParseAttributes(LeftAt(data, next), tid));
      attrs, offset := attrs + [parsed.value], next;
    }
    assert attrs + [] == attrs;
    r := Ok(attrs);
  }

  lemma PrependNothing(r: Result<seq<Attribute>>)
    ensures Prepend([], r) == r
  {
    if r.Ok? {
      assert [] + r.value == r.value;
    }
  }

  lemma PrependStep(attrs: seq<Attribute>, a: Attribute, r: Result<seq<Attribute>>)
    ensures Prepend(attrs, Prepend([a], r)) == Prepend(attrs + [a], r)
  {
    if r.Ok? {
      assert attrs + ([a] + r.value) == attrs + [a] + r.value;
    }
  }

  /** The first XOR-ed address; if there is none, the first plain one. */
  predicate Preferred(attrs: seq<Attribute>, i: nat)
    requires i < |attrs|
  {
    match attrs[i]
    case XorMappedAddress(_) => forall j :: 0 <= j < i ==> !attrs[j].XorMappedAddress?
    case MappedAddress(_) => (forall j :: 0 <= j < |attrs| ==> !attrs[j].XorMappedAddress?)
                             && (forall j :: 0 <= j < i ==> attrs[j].Unknown?)
    case Unknown(_, _) => false
  }

  /** `mapped_address`. */
  method MappedAddressOf(attrs: seq<Attribute>) returns (r: Option<Address>)
    ensures r.None? ==> forall i :: 0 <= i < |attrs| ==> attrs[i].Unknown?
    ensures r.Some? ==> exists i :: 0 <= i < |attrs| && Preferred(attrs, i) && attrs[i].address == r.value
  {
    for i := 0 to |attrs|
      invariant forall j :: 0 <= j < i ==> !attrs[j].XorMappedAddress?
    {
      if attrs[i].XorMappedAddress? {
        assert Preferred(attrs, i);
        return Some(attrs[i].address);
      }
    }
    for i := 0 to |attrs|
      invariant forall j :: 0 <= j < i ==> attrs[j].Unknown?
    {
      if attrs[i].MappedAddress? {
        assert Preferred(attrs, i);
        return Some(attrs[i].address);
      }
    }
    r := None;
  }
}
