/** Byte strings and the fixed-width integer encodings the wire formats are built from. */
module Bytes {
  type Byte = x: int | 0 <= x < 256
  type Bytes = seq<Byte>

  const U16: nat := 0x1_0000
  const U32: nat := 0x1_0000_0000
  const U64: nat := 0x1_0000_0000_0000_0000

  /** `n` as a `u32` after a wrapping operation. */
  function Wrap32(n: nat): (r: nat)
    ensures r < U32
    ensures n < U32 ==> r == n
  {
    n % U32
  }

  function Pow256(w: nat): (p: nat)
    ensures p > 0
  {
    if w == 0 then 1 else 256 * Pow256(w - 1)
  }

  lemma Pow256Values()
    ensures Pow256(1) == 256 && Pow256(2) == U16 && Pow256(4) == U32 && Pow256(8) == U64
  {
    assert Pow256(3) == 256 * Pow256(2) && Pow256(4) == 256 * Pow256(3);
    assert Pow256(5) == 256 * Pow256(4) && Pow256(6) == 256 * Pow256(5);
    assert Pow256(7) == 256 * Pow256(6) && Pow256(8) == 256 * Pow256(7);
  }

  function Zeros(n: nat): (b: Bytes)
    ensures |b| == n
  {
    seq(n, _ => 0)
  }

  /** `to_be_bytes` of a `w`-byte unsigned integer. */
  function BigEndian(n: nat, w: nat): (b: Bytes)
    ensures |b| == w
  {
    if w == 0 then [] else BigEndian(n / 256, w - 1) + [n % 256]
  }

  /** `from_be_bytes`. */
  function FromBigEndian(b: Bytes): (n: nat)
  {
    if b == [] then 0 else 256 * FromBigEndian(b[..|b| - 1]) + b[|b| - 1]
  }

  /** `to_le_bytes` of a `w`-byte unsigned integer. */
  function LittleEndian(n: nat, w: nat): (b: Bytes)
    ensures |b| == w
  {
    if w == 0 then [] else [n % 256] + LittleEndian(n / 256, w - 1)
  }

  /** `from_le_bytes`. */
  function FromLittleEndian(b: Bytes): (n: nat)
  {
    if b == [] then 0 else b[0] + 256 * FromLittleEndian(b[1..])
  }

  lemma {:induction false} BigEndianRoundTrip(n: nat, w: nat)
    requires n < Pow256(w)
    ensures FromBigEndian(BigEndian(n, w)) == n
  {
    if w == 0 {
    } else {
      BigEndianRoundTrip(n / 256, w - 1);
      var b := BigEndian(n, w);
      assert b[..|b| - 1] == BigEndian(n / 256, w - 1);
    }
  }

  lemma {:induction false} BigEndianOfBytes(b: Bytes)
    ensures FromBigEndian(b) < Pow256(|b|)
    ensures BigEndian(FromBigEndian(b), |b|) == b
  {
    if b == [] {
    } else {
      var front := b[..|b| - 1];
      BigEndianOfBytes(front);
      assert FromBigEndian(b) / 256 == FromBigEndian(front);
      assert b == front + [b[|b| - 1]];
    }
  }

  /** A byte as a number. */
  function Octet(b: Bytes, i: nat): (n: nat)
    requires i < |b|
  {
    b[i]
  }

  /** What big-endian bytes stand for: the first one counts most. */
  lemma BigEndianValue(b: Bytes)
    ensures |b| == 2 ==> FromBigEndian(b) == 0x100 * Octet(b, 0) + b[1]
    ensures |b| == 4 ==>
              FromBigEndian(b) == 0x100_0000 * Octet(b, 0) + 0x1_0000 * Octet(b, 1) + 0x100 * Octet(b, 2) + b[3]
  {
    if |b| == 2 {
      assert b[..1] == [b[0]] && FromBigEndian([b[0]]) == b[0];
    } else if |b| == 4 {
      assert b[..3][..2] == b[..2] && b[..2][..1] == [b[0]] && FromBigEndian([b[0]]) == b[0];
      assert FromBigEndian(b[..2]) == 0x100 * Octet(b, 0) + b[1];
      assert FromBigEndian(b[..3]) == 0x1_0000 * Octet(b, 0) + 0x100 * Octet(b, 1) + b[2];
    }
  }

  /** What little-endian bytes stand for: the first one counts least. */
  lemma LittleEndianValue(b: Bytes)
    ensures |b| == 4 ==>
              FromLittleEndian(b) == b[0] + 0x100 * Octet(b, 1) + 0x1_0000 * Octet(b, 2) + 0x100_0000 * Octet(b, 3)
    ensures |b| == 8 ==> FromLittleEndian(b) == FromLittleEndian(b[..4]) + U32 * FromLittleEndian(b[4..])
  {
    if |b| == 4 {
      LittleEndianFour(b, []);
      assert b + [] == b;
    } else if |b| == 8 {
      LittleEndianFour(b[..4], b[4..]);
      LittleEndianFour(b[..4], []);
      assert b[..4] + b[4..] == b && b[..4] + [] == b[..4];
    }
  }

  lemma LittleEndianFour(b: Bytes, more: Bytes)
    requires |b| == 4
    ensures FromLittleEndian(b + more)
         == b[0] + 0x100 * Octet(b, 1) + 0x1_0000 * Octet(b, 2) + 0x100_0000 * Octet(b, 3)
            + U32 * FromLittleEndian(more)
  {
    assert (b + more)[1..] == b[1..] + more && (b[1..] + more)[1..] == b[2..] + more;
    assert (b[2..] + more)[1..] == b[3..] + more && (b[3..] + more)[1..] == more;
    assert FromLittleEndian(b[3..] + more) == b[3] + 0x100 * FromLittleEndian(more);
    assert FromLittleEndian(b[2..] + more) == b[2] + 0x100 * FromLittleEndian(b[3..] + more);
  }

  lemma {:induction false} LittleEndianRoundTrip(n: nat, w: nat)
    requires n < Pow256(w)
    ensures FromLittleEndian(LittleEndian(n, w)) == n
  {
    if w == 0 {
    } else {
      LittleEndianRoundTrip(n / 256, w - 1);
      assert LittleEndian(n, w)[1..] == LittleEndian(n / 256, w - 1);
    }
  }

  lemma {:induction false} LittleEndianRange(b: Bytes)
    ensures FromLittleEndian(b) < Pow256(|b|)
  {
    if b != [] {
      LittleEndianRange(b[1..]);
    }
  }

  /** The fixed-width integers used on the wire, all at once. */
  lemma WireIntegers(n: nat)
    ensures n < U16 ==> FromBigEndian(BigEndian(n, 2)) == n
    ensures n < U32 ==> FromBigEndian(BigEndian(n, 4)) == n
    ensures n < U32 ==> FromLittleEndian(LittleEndian(n, 4)) == n
    ensures n < U64 ==> FromLittleEndian(LittleEndian(n, 8)) == n
  {
    Pow256Values();
    if n < U16 { BigEndianRoundTrip(n, 2); }
    if n < U32 { BigEndianRoundTrip(n, 4); LittleEndianRoundTrip(n, 4); }
    if n < U64 { LittleEndianRoundTrip(n, 8); }
  }

  /** Reading back the parts of a concatenation. */
  lemma Parts<T>(a: seq<T>, b: seq<T>, c: seq<T>)
    ensures (a + b + c)[..|a|] == a
    ensures (a + b + c)[|a|..|a| + |b|] == b
    ensures (a + b + c)[|a| + |b|..] == c
  {
  }

  lemma FiveParts<T>(a: seq<T>, b: seq<T>, c: seq<T>, d: seq<T>, e: seq<T>)
    ensures var s := a + b + c + d + e;
            var i, j := |a| + |b|, |a| + |b| + |c|;
            && s[..|a|] == a && s[|a|..i] == b && s[i..j] == c && s[j..j + |d|] == d && s[j + |d|..] == e
  {
  }
}
