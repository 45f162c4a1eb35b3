/** Byte strings and the fixed-width integer encodings every signed message uses. */
module ByteStrings {

  type byte = x: int | 0 <= x < 256
  type Bytes = seq<byte>

  function Pow256(k: nat): (p: nat)
    ensures p > 0
  {
    if k == 0 then 1 else 256 * Pow256(k - 1)
  }

  /** `n` in `width` bytes, most significant first; higher digits are dropped. */
  function BigEndian(n: nat, width: nat): (b: Bytes)
    ensures |b| == width
  {
    if width == 0 then [] else BigEndian(n / 256, width - 1) + [n % 256]
  }

  /** The number a big-endian byte string denotes. */
  function FromBigEndian(b: Bytes): nat {
    if b == [] then 0 else FromBigEndian(b[..|b| - 1]) * 256 + b[|b| - 1]
  }

  lemma {:induction false} BigEndianReadsBack(n: nat, width: nat)
    requires n < Pow256(width)
    ensures FromBigEndian(BigEndian(n, width)) == n
  {
    if width > 0 {
      BigEndianReadsBack(n / 256, width - 1);
      assert BigEndian(n, width)[..width - 1] == BigEndian(n / 256, width - 1);
    }
  }

  lemma {:induction false} BigEndianWritesBack(b: Bytes)
    ensures FromBigEndian(b) < Pow256(|b|)
    ensures BigEndian(FromBigEndian(b), |b|) == b
  {
    if b != [] {
      var high, low := b[..|b| - 1], b[|b| - 1];
      BigEndianWritesBack(high);
      assert FromBigEndian(b) / 256 == FromBigEndian(high) && FromBigEndian(b) % 256 == low;
      assert b == high + [low];
    }
  }

  lemma BigEndianInjective(m: nat, n: nat, width: nat)
    requires m < Pow256(width) && n < Pow256(width)
    requires BigEndian(m, width) == BigEndian(n, width)
    ensures m == n
  {
    BigEndianReadsBack(m, width);
    BigEndianReadsBack(n, width);
  }

  // ----- the integer widths of the wire formats -----

  const U16_LIMIT: nat := 0x1_0000
  const U32_LIMIT: nat := 0x1_0000_0000
  const U64_LIMIT: nat := 0x1_0000_0000_0000_0000
  const I128_LIMIT: int := 0x8000_0000_0000_0000_0000_0000_0000_0000
  const U128_LIMIT: nat := 0x1_0000_0000_0000_0000_0000_0000_0000_0000

  type u32 = x: int | 0 <= x < 0x1_0000_0000
  type u64 = x: int | 0 <= x < 0x1_0000_0000_0000_0000
  type i128 = x: int | -0x8000_0000_0000_0000_0000_0000_0000_0000 <= x < 0x8000_0000_0000_0000_0000_0000_0000_0000

  lemma WidthLimits()
    ensures Pow256(2) == U16_LIMIT && Pow256(4) == U32_LIMIT && Pow256(8) == U64_LIMIT && Pow256(16) == U128_LIMIT
  {
    assert Pow256(2) == 0x1_0000;
    assert Pow256(4) == 0x1_0000_0000;
    assert Pow256(6) == 0x1_0000_0000_0000;
    assert Pow256(8) == 0x1_0000_0000_0000_0000;
    assert Pow256(10) == 0x1_0000_0000_0000_0000_0000;
    assert Pow256(12) == 0x1_0000_0000_0000_0000_0000_0000;
    assert Pow256(14) == 0x1_0000_0000_0000_0000_0000_0000_0000;
  }

  /** The residue of `n` modulo 2^128: what a bitwise mask of 128 ones leaves of a signed integer. */
  function Wrap128(n: int): nat {
    n % U128_LIMIT
  }

  function I128Bytes(n: int): (b: Bytes)
    ensures |b| == 16
  {
    BigEndian(Wrap128(n), 16)
  }

  /** The signed number sixteen two's-complement bytes denote. */
  function FromTwosComplement(b: Bytes): int
    requires |b| == 16
  {
    var u := FromBigEndian(b);
    if b[0] < 128 then u else u - U128_LIMIT
  }

  lemma ShiftBound(p: nat, h: nat, f: nat, low: byte)
    requires p * h <= f < p * (1 + h)
    ensures (256 * p) * h <= f * 256 + low < (256 * p) * (1 + h)
  {
    var x, y := p * h, p * (1 + h);
    assert (256 * p) * h == 256 * x && (256 * p) * (1 + h) == 256 * y;
  }

  /** The first byte of a 16-byte number is its value divided by 2^120. */
  lemma {:induction false} LeadingByte(b: Bytes)
    requires b != []
    ensures Pow256(|b| - 1) * b[0] <= FromBigEndian(b) < Pow256(|b| - 1) * (1 + b[0] as int)
  {
    if |b| > 1 {
      var high := b[..|b| - 1];
      LeadingByte(high);
      assert high[0] == b[0];
      ShiftBound(Pow256(|b| - 2), b[0], FromBigEndian(high), b[|b| - 1]);
    } else {
      assert b[..0] == [];
    }
  }

  /** Over the whole i128 range, sixteen bytes written by masking and shifting read back as the number. */
  lemma TwosComplementReadsBack(n: i128)
    ensures FromTwosComplement(I128Bytes(n)) == n
  {
    WidthLimits();
    var u, b := Wrap128(n), I128Bytes(n);
    BigEndianReadsBack(u, 16);
    LeadingByte(b);
    Pow256At15();
  }

  lemma Pow256At15()
    ensures Pow256(15) == 0x1_0000_0000_0000_0000_0000_0000_0000_00
  {
    WidthLimits();
    assert Pow256(16) == 256 * Pow256(15);
  }

  lemma I128Injective(m: i128, n: i128)
    requires I128Bytes(m) == I128Bytes(n)
    ensures m == n
  {
    TwosComplementReadsBack(m);
    TwosComplementReadsBack(n);
  }

  // ----- concatenations of fixed-width parts -----

  function Concat(parts: seq<Bytes>): Bytes {
    if parts == [] then [] else parts[0] + Concat(parts[1..])
  }

  function TotalLength(parts: seq<Bytes>): nat {
    if parts == [] then 0 else |parts[0]| + TotalLength(parts[1..])
  }

  lemma {:induction false} ConcatLength(parts: seq<Bytes>)
    ensures |Concat(parts)| == TotalLength(parts)
  {
    if parts != [] {
      ConcatLength(parts[1..]);
    }
  }

  lemma {:induction false} ConcatAppend(parts: seq<Bytes>, part: Bytes)
    ensures Concat(parts + [part]) == Concat(parts) + part
  {
    if parts == [] {
      assert parts + [part] == [part];
      assert Concat([part]) == part + Concat([part][1..]);
    } else {
      assert (parts + [part])[1..] == parts[1..] + [part];
      ConcatAppend(parts[1..], part);
    }
  }

  /** Parts of agreed widths are determined by their concatenation. */
  lemma {:induction false} ConcatInjective(ps: seq<Bytes>, qs: seq<Bytes>)
    requires |ps| == |qs| && forall i :: 0 <= i < |ps| ==> |ps[i]| == |qs[i]|
    requires Concat(ps) == Concat(qs)
    ensures ps == qs
  {
    if ps != [] {
      var n := |ps[0]|;
      assert Concat(ps)[..n] == ps[0] && Concat(qs)[..n] == qs[0];
      assert Concat(ps)[n..] == Concat(ps[1..]) && Concat(qs)[n..] == Concat(qs[1..]);
      ConcatInjective(ps[1..], qs[1..]);
      assert ps == [ps[0]] + ps[1..] && qs == [qs[0]] + qs[1..];
    }
  }
}
