/**
 * The 256-byte claim preimage (wire version 1), written twice: by appending field after field, and by offsets into a
 * fixed buffer; and read back by the same layout.
 */
module ClaimFormat {
  import opened Prelude
  import opened ByteStrings

  type Bytes32 = b: Bytes | |b| == 32 witness BigEndian(0, 32)

  const ZERO32: Bytes := BigEndian(0, 32)

  const CLAIM_MAGIC: Bytes := [0x43, 0x46, 0x43, 0x4c]
  const WIRE_VERSION: nat := 1
  const PREIMAGE_LENGTH: nat := 256

  datatype ReplayMode = Sequence | UniqueId

  /** A claim as the verifying contract receives it. */
  datatype Claim = Claim(
    issuer: Bytes32, claimType: Bytes32, subject: Bytes32, payloadHash: Bytes32, payloadEncoding: u32,
    mode: ReplayMode, nonce: u64, claimId: Bytes32, issuedAt: u64, expiresAt: u64)

  /** One byte for the encoding; a value above 255 becomes 255, never a valid one. */
  function EncodingByte(encoding: u32): byte {
    if encoding > 255 then 255 else encoding
  }

  function ModeByte(mode: ReplayMode): byte {
    if mode == Sequence then 0 else 1
  }

  function Parts(network: Bytes32, contract: Bytes32, c: Claim): (parts: seq<Bytes>)
    ensures |parts| == 14
  {
    [CLAIM_MAGIC, BigEndian(WIRE_VERSION, 2), network, contract, c.issuer, c.claimType, c.subject, c.payloadHash,
     [EncodingByte(c.payloadEncoding)], [ModeByte(c.mode)], BigEndian(c.nonce, 8), c.claimId,
     BigEndian(c.issuedAt, 8), BigEndian(c.expiresAt, 8)]
  }

  function Preimage(network: Bytes32, contract: Bytes32, c: Claim): Bytes {
    Concat(Parts(network, contract, c))
  }

  // ----- the layout -----

  datatype FieldName =
    | MagicField | VersionField | NetworkField | ContractField | IssuerField | ClaimTypeField | SubjectField
    | PayloadHashField | EncodingField | ModeField | NonceField | ClaimIdField | IssuedAtField | ExpiresAtField

  datatype PreimageField = PreimageField(name: FieldName, offset: nat, size: nat)

  const PREIMAGE_LAYOUT: seq<PreimageField> := [
    PreimageField(MagicField, 0, 4), PreimageField(VersionField, 4, 2), PreimageField(NetworkField, 6, 32),
    PreimageField(ContractField, 38, 32), PreimageField(IssuerField, 70, 32), PreimageField(ClaimTypeField, 102, 32),
    PreimageField(SubjectField, 134, 32), PreimageField(PayloadHashField, 166, 32), PreimageField(EncodingField, 198, 1),
    PreimageField(ModeField, 199, 1), PreimageField(NonceField, 200, 8), PreimageField(ClaimIdField, 208, 32),
    PreimageField(IssuedAtField, 240, 8), PreimageField(ExpiresAtField, 248, 8)]

  /** Where field `k` ends. */
  function End(k: nat): nat
    requires k < |PREIMAGE_LAYOUT|
  {
    PREIMAGE_LAYOUT[k].offset + PREIMAGE_LAYOUT[k].size
  }

  /** The regions are contiguous, in order, cover all 256 bytes, and each has exactly its field's width. */
  lemma LayoutTiles(network: Bytes32, contract: Bytes32, c: Claim)
    ensures |PREIMAGE_LAYOUT| == 14 && PREIMAGE_LAYOUT[0].offset == 0 && End(13) == PREIMAGE_LENGTH
    ensures forall k :: 0 <= k < 13 ==> End(k) == PREIMAGE_LAYOUT[k + 1].offset
    ensures forall k :: 0 <= k < 14 ==> PREIMAGE_LAYOUT[k].size == |Parts(network, contract, c)[k]| > 0
  {
  }

  /** Everything before part `k` of a concatenation is the concatenation of the parts before it. */
  lemma {:induction false} ConcatPrefix(parts: seq<Bytes>, k: nat)
    requires k <= |parts|
    ensures TotalLength(parts[..k]) <= |Concat(parts)| && Concat(parts)[..TotalLength(parts[..k])] == Concat(parts[..k])
  {
    ConcatLength(parts[..k]);
    if k > 0 {
      ConcatPrefix(parts[1..], k - 1);
      assert parts[..k][1..] == parts[1..][..k - 1];
      var n := TotalLength(parts[1..][..k - 1]);
      assert Concat(parts)[..|parts[0]| + n] == parts[0] + Concat(parts[1..])[..n];
    }
  }

  /** The fields before `k` take exactly the bytes before `k`'s offset. */
  lemma {:induction false} OffsetIsPrefix(network: Bytes32, contract: Bytes32, c: Claim, k: nat)
    requires k <= 14
    ensures TotalLength(Parts(network, contract, c)[..k]) == if k == 14 then PREIMAGE_LENGTH else PREIMAGE_LAYOUT[k].offset
  {
    LayoutTiles(network, contract, c);
    var parts := Parts(network, contract, c);
    if k > 0 {
      OffsetIsPrefix(network, contract, c, k - 1);
      assert parts[..k] == parts[..k - 1] + [parts[k - 1]];
      ConcatAppend(parts[..k - 1], parts[k - 1]);
      ConcatLength(parts[..k]);
      ConcatLength(parts[..k - 1]);
    }
  }

  /** In the preimage, the bytes of field `k`'s region are exactly that field. */
  lemma FieldAt(network: Bytes32, contract: Bytes32, c: Claim, k: nat)
    requires k < 14
    ensures |Preimage(network, contract, c)| == PREIMAGE_LENGTH && End(k) <= PREIMAGE_LENGTH
    ensures Preimage(network, contract, c)[PREIMAGE_LAYOUT[k].offset..End(k)] == Parts(network, contract, c)[k]
  {
    var parts, whole := Parts(network, contract, c), Preimage(network, contract, c);
    LayoutTiles(network, contract, c);
    OffsetIsPrefix(network, contract, c, k);
    OffsetIsPrefix(network, contract, c, k + 1);
    OffsetIsPrefix(network, contract, c, 14);
    assert parts[..14] == parts;
    ConcatLength(parts);
    ConcatPrefix(parts, k);
    ConcatPrefix(parts, k + 1);
    assert parts[..k + 1] == parts[..k] + [parts[k]];
    ConcatAppend(parts[..k], parts[k]);
    hide Parts;
    var low, high := PREIMAGE_LAYOUT[k].offset, End(k);
    assert whole[..high] == whole[..low] + parts[k];
    assert whole[low..high] == whole[..high][low..];
  }

  // ----- the two writers -----

  /** One more field appended to the buffer. */
  method Append(m: Bytes, part: Bytes, ghost parts: seq<Bytes>, ghost k: nat) returns (m': Bytes)
    requires k < |parts| && part == parts[k] && m == Concat(parts[..k])
    ensures m' == Concat(parts[..k + 1])
  {
    ConcatAppend(parts[..k], part);
    assert parts[..k + 1] == parts[..k] + [part];
    m' := m + part;
  }

  /** The contract's builder: one buffer, field after field. */
  method AppendPreimage(network: Bytes32, contract: Bytes32, c: Claim) returns (m: Bytes)
    ensures m == Preimage(network, contract, c)
  {
    ghost var parts := Parts(network, contract, c);
    m := [];
    m := Append(m, CLAIM_MAGIC, parts, 0);
    m := Append(m, BigEndian(WIRE_VERSION, 2), parts, 1);
    m := Append(m, network, parts, 2);
    m := Append(m, contract, parts, 3);
    m := Append(m, c.issuer, parts, 4);
    m := Append(m, c.claimType, parts, 5);
    m := Append(m, c.subject, parts, 6);
    m := Append(m, c.payloadHash, parts, 7);
    m := Append(m, [EncodingByte(c.payloadEncoding)], parts, 8);
    m := Append(m, [ModeByte(c.mode)], parts, 9);
    m := Append(m, BigEndian(c.nonce, 8), parts, 10);
    m := Append(m, c.claimId, parts, 11);
    m := Append(m, BigEndian(c.issuedAt, 8), parts, 12);
    m := Append(m, BigEndian(c.expiresAt, 8), parts, 13);
    assert parts[..14] == parts;
  }

  datatype SdkEncoding = Raw | Xdr

  datatype SdkReplay = BySequence(nonce: int) | ById(claimId: Bytes)

  /** A claim as a client writes it; lengths and ranges are yet to be checked. */
  datatype SdkClaim = SdkClaim(
    issuer: Bytes, claimType: Bytes, subject: Bytes, payloadHash: Bytes, payloadEncoding: SdkEncoding,
    replay: SdkReplay, issuedAt: int, expiresAt: int)

  predicate IsU64(n: int) {
    0 <= n < U64_LIMIT
  }

  predicate WellShaped(c: SdkClaim) {
    && |c.issuer| == |c.claimType| == |c.subject| == |c.payloadHash| == 32 && IsU64(c.issuedAt) && IsU64(c.expiresAt)
    && match c.replay
       case BySequence(nonce) => IsU64(nonce)
       case ById(claimId) => |claimId| == 32
  }

  /** The claim on the wire: the inactive replay field is zero. */
  function WireClaim(c: SdkClaim): Claim
    requires WellShaped(c)
  {
    Claim(c.issuer, c.claimType, c.subject, c.payloadHash, if c.payloadEncoding == Raw then 0 else 1,
          if c.replay.BySequence? then Sequence else UniqueId,
          if c.replay.BySequence? then c.replay.nonce else 0,
          if c.replay.BySequence? then ZERO32 else c.replay.claimId,
          c.issuedAt, c.expiresAt)
  }

  /** Write bytes at an offset; everything before it is kept. */
  method SetAt(out: array<byte>, part: Bytes, offset: nat, ghost parts: seq<Bytes>, ghost k: nat)
    requires k < |parts| && part == parts[k] && offset + |part| <= out.Length
    requires out[..offset] == Concat(parts[..k])
    modifies out
    ensures out[..offset + |part|] == Concat(parts[..k + 1])
  {
    ghost var before := out[..offset];
    var i := 0;
    while i < |part|
      invariant 0 <= i <= |part| && out[..offset] == before
      invariant out[offset..offset + i] == part[..i]
    {
      out[offset + i] := part[i];
      assert out[offset..offset + i + 1] == out[offset..offset + i] + [part[i]];
      i := i + 1;
    }
    ConcatAppend(parts[..k], part);
    assert parts[..k + 1] == parts[..k] + [part];
    assert out[..offset + |part|] == out[..offset] + out[offset..offset + |part|];
  }

  /** The client's encoder: a zeroed 256-byte buffer written by offsets; nothing for a claim of the wrong shape. */
  method EncodeClaim(c: SdkClaim, network: Bytes32, contract: Bytes32) returns (out: array?<byte>)
    ensures out != null <==> WellShaped(c)
    ensures out != null ==> fresh(out) && out[..] == Preimage(network, contract, WireClaim(c))
  {
    if !WellShaped(c) { return null; }
    var w := WireClaim(c);
    var buffer := new byte[PREIMAGE_LENGTH](_ => 0);
    WriteIdentity(buffer, network, contract, w);
    WriteReplay(buffer, network, contract, w);
    assert buffer[..256] == buffer[..];
    return buffer;
  }

  /** The first eight fields: what the claim is bound to and who says what about whom. */
  method WriteIdentity(out: array<byte>, network: Bytes32, contract: Bytes32, w: Claim)
    requires out.Length == PREIMAGE_LENGTH
    modifies out
    ensures out[..198] == Concat(Parts(network, contract, w)[..8])
  {
    ghost var parts := Parts(network, contract, w);
    NoParts(parts);
    hide Concat, BigEndian, EncodingByte, ModeByte;
    assert out[..0] == [];
    SetAt(out, CLAIM_MAGIC, 0, parts, 0);
    SetAt(out, BigEndian(WIRE_VERSION, 2), 4, parts, 1);
    SetAt(out, network, 6, parts, 2);
    SetAt(out, contract, 38, parts, 3);
    SetAt(out, w.issuer, 70, parts, 4);
    SetAt(out, w.claimType, 102, parts, 5);
    SetAt(out, w.subject, 134, parts, 6);
    SetAt(out, w.payloadHash, 166, parts, 7);
  }

  /** The last six: encoding, replay fields and validity window. */
  method WriteReplay(out: array<byte>, network: Bytes32, contract: Bytes32, w: Claim)
    requires out.Length == PREIMAGE_LENGTH && out[..198] == Concat(Parts(network, contract, w)[..8])
    modifies out
    ensures out[..256] == Preimage(network, contract, w)
  {
    ghost var parts := Parts(network, contract, w);
    hide Concat, BigEndian, EncodingByte, ModeByte;
    SetAt(out, [EncodingByte(w.payloadEncoding)], 198, parts, 8);
    SetAt(out, [ModeByte(w.mode)], 199, parts, 9);
    SetAt(out, BigEndian(w.nonce, 8), 200, parts, 10);
    SetAt(out, w.claimId, 208, parts, 11);
    SetAt(out, BigEndian(w.issuedAt, 8), 240, parts, 12);
    SetAt(out, BigEndian(w.expiresAt, 8), 248, parts, 13);
    assert parts[..14] == parts;
  }

  // ----- reading back -----

  /** Every field as it is on the wire. */
  datatype Decoded = Decoded(
    network: Bytes32, contract: Bytes32, issuer: Bytes32, claimType: Bytes32, subject: Bytes32, payloadHash: Bytes32,
    payloadEncoding: byte, replayMode: byte, nonce: nat, claimId: Bytes32, issuedAt: nat, expiresAt: nat)

  /** A 32-byte region at its layout offset. */
  function Region32(b: Bytes, offset: nat): Bytes32
    requires offset + 32 <= |b|
  {
    b[offset..offset + 32]
  }

  function ReadU64(b: Bytes, offset: nat): nat
    requires offset + 8 <= |b|
  {
    FromBigEndian(b[offset..offset + 8])
  }

  /** Structure only: the length, the magic and the version; every field is returned whatever it holds. */
  function DecodePreimage(b: Bytes): Option<Decoded> {
    if |b| != PREIMAGE_LENGTH || b[0..4] != CLAIM_MAGIC || FromBigEndian(b[4..6]) != WIRE_VERSION then None
    else Some(Decoded(
      Region32(b, 6), Region32(b, 38), Region32(b, 70), Region32(b, 102), Region32(b, 134), Region32(b, 166),
      b[198], b[199], ReadU64(b, 200), Region32(b, 208), ReadU64(b, 240), ReadU64(b, 248)))
  }

  /** Decoding inverts encoding, field by field. */
  lemma DecodeInvertsEncode(network: Bytes32, contract: Bytes32, c: Claim)
    ensures
      DecodePreimage(Preimage(network, contract, c))
      == Some(Decoded(network, contract, c.issuer, c.claimType, c.subject, c.payloadHash, EncodingByte(c.payloadEncoding),
                      ModeByte(c.mode), c.nonce, c.claimId, c.issuedAt, c.expiresAt))
  {
    var b, parts := Preimage(network, contract, c), Parts(network, contract, c);
    forall k | 0 <= k < 14
      ensures |b| == PREIMAGE_LENGTH && End(k) <= PREIMAGE_LENGTH && b[PREIMAGE_LAYOUT[k].offset..End(k)] == parts[k]
    {
      FieldAt(network, contract, c, k);
    }
    hide Preimage;
    assert b[0..4] == parts[0] && b[4..6] == parts[1] && b[6..38] == parts[2] && b[38..70] == parts[3];
    assert b[70..102] == parts[4] && b[102..134] == parts[5] && b[134..166] == parts[6] && b[166..198] == parts[7];
    assert b[198..199] == parts[8] && b[199..200] == parts[9] && b[200..208] == parts[10] && b[208..240] == parts[11];
    assert b[240..248] == parts[12] && b[248..256] == parts[13];
    assert b[198] == b[198..199][0] && b[199] == b[199..200][0];
    WidthLimits();
    BigEndianReadsBack(WIRE_VERSION, 2);
    BigEndianReadsBack(c.nonce, 8);
    BigEndianReadsBack(c.issuedAt, 8);
    BigEndianReadsBack(c.expiresAt, 8);
  }

  function WireParts(d: Decoded): seq<Bytes> {
    [CLAIM_MAGIC, BigEndian(WIRE_VERSION, 2), d.network, d.contract, d.issuer, d.claimType, d.subject, d.payloadHash,
     [d.payloadEncoding], [d.replayMode], BigEndian(d.nonce, 8), d.claimId, BigEndian(d.issuedAt, 8), BigEndian(d.expiresAt, 8)]
  }

  lemma ReadWrites(b: Bytes, offset: nat)
    requires offset + 8 <= |b|
    ensures BigEndian(ReadU64(b, offset), 8) == b[offset..offset + 8]
  {
    BigEndianWritesBack(b[offset..offset + 8]);
  }

  lemma {:induction false} CutAt(b: Bytes, parts: seq<Bytes>, k: nat, at: nat)
    requires k < |parts| && at + |parts[k]| <= |b|
    requires b[..at] == Concat(parts[..k]) && b[at..at + |parts[k]|] == parts[k]
    ensures b[..at + |parts[k]|] == Concat(parts[..k + 1])
  {
    ConcatAppend(parts[..k], parts[k]);
    assert parts[..k + 1] == parts[..k] + [parts[k]];
    assert b[..at + |parts[k]|] == b[..at] + b[at..at + |parts[k]|];
  }

  lemma NoParts(parts: seq<Bytes>)
    ensures Concat(parts[..0]) == []
  {
  }

  /** 256 bytes whose regions are these parts are their concatenation. */
  lemma RegionsConcat(b: Bytes, parts: seq<Bytes>)
    requires |b| == PREIMAGE_LENGTH && |parts| == 14
    requires forall k :: 0 <= k < 14 ==> |parts[k]| == PREIMAGE_LAYOUT[k].size && RegionOf(b, k) == parts[k]
    ensures Concat(parts) == b
  {
    RegionsFrom(b, parts, 14);
    assert parts[..14] == parts && b[..256] == b;
  }

  lemma {:induction false} RegionsFrom(b: Bytes, parts: seq<Bytes>, n: nat)
    requires |b| == PREIMAGE_LENGTH && |parts| == 14 && n <= 14
    requires forall k :: 0 <= k < 14 ==> |parts[k]| == PREIMAGE_LAYOUT[k].size && RegionOf(b, k) == parts[k]
    ensures Concat(parts[..n]) == if n == 0 then [] else b[..End(n - 1)]
  {
    if n > 0 {
      RegionsFrom(b, parts, n - 1);
      hide Concat;
      CutAt(b, parts, n - 1, PREIMAGE_LAYOUT[n - 1].offset);
    }
  }

  /** And encoding inverts decoding: whatever 256 bytes are accepted, writing the decoded fields gives them back. */
  lemma EncodeInvertsDecode(b: Bytes)
    requires DecodePreimage(b).Some?
    ensures Concat(WireParts(DecodePreimage(b).value)) == b
  {
    hide Concat, FromBigEndian, BigEndian;
    WidthLimits();
    VersionBytes(b[4..6]);
    ReadWrites(b, 200);
    ReadWrites(b, 240);
    ReadWrites(b, 248);
    assert b[198..199] == [b[198]] && b[199..200] == [b[199]];
    RegionsConcat(b, WireParts(DecodePreimage(b).value));
  }

  lemma VersionBytes(v: Bytes)
    requires |v| == 2 && FromBigEndian(v) == WIRE_VERSION
    ensures v == BigEndian(WIRE_VERSION, 2)
  {
    BigEndianWritesBack(v);
  }

  /**
   * Two claims share a preimage only when every field is equal, the encoding up to its byte: so on valid encodings
   * the signed bytes determine network, contract and claim.
   */
  lemma PreimageInjective(n1: Bytes32, c1: Bytes32, x: Claim, n2: Bytes32, c2: Bytes32, y: Claim)
    requires Preimage(n1, c1, x) == Preimage(n2, c2, y)
    ensures n1 == n2 && c1 == c2 && x.(payloadEncoding := 0) == y.(payloadEncoding := 0)
    ensures x.payloadEncoding < 255 ==> x == y
  {
    DecodeInvertsEncode(n1, c1, x);
    DecodeInvertsEncode(n2, c2, y);
    hide Preimage, DecodePreimage;
  }

  /** A reserved encoding never aliases a valid one. */
  lemma ReservedNeverAliases(valid: u32, other: u32)
    requires valid <= 1
    ensures EncodingByte(other) == EncodingByte(valid) <==> other == valid
  {
  }

  // ----- comparing -----

  datatype FieldDiff = FieldDiff(field: PreimageField, a: Bytes, b: Bytes)

  function RegionOf(b: Bytes, k: nat): Bytes
    requires k < 14 && |b| == PREIMAGE_LENGTH
  {
    b[PREIMAGE_LAYOUT[k].offset..End(k)]
  }

  /** The differing fields among the first `n`, in layout order. */
  function Diffs(a: Bytes, b: Bytes, n: nat): seq<FieldDiff>
    requires |a| == |b| == PREIMAGE_LENGTH && n <= 14
  {
    if n == 0 then []
    else
      Diffs(a, b, n - 1)
      + if RegionOf(a, n - 1) == RegionOf(b, n - 1) then [] else [FieldDiff(PREIMAGE_LAYOUT[n - 1], RegionOf(a, n - 1), RegionOf(b, n - 1))]
  }

  predicate Within(f: PreimageField) {
    f.offset + f.size <= PREIMAGE_LENGTH
  }

  /** One field's difference, if it has one. */
  function DiffAt(a: Bytes, b: Bytes, f: PreimageField): seq<FieldDiff>
    requires |a| == |b| == PREIMAGE_LENGTH && Within(f)
  {
    var x, y := a[f.offset..f.offset + f.size], b[f.offset..f.offset + f.size];
    if x != y then [FieldDiff(f, x, y)] else []
  }

  lemma FieldsWithin()
    ensures |PREIMAGE_LAYOUT| == 14 && forall k :: 0 <= k < 14 ==> Within(PREIMAGE_LAYOUT[k])
  {
  }

  lemma DiffsSnoc(a: Bytes, b: Bytes, k: nat)
    requires |a| == |b| == PREIMAGE_LENGTH && k < 14
    ensures |PREIMAGE_LAYOUT| == 14 && Within(PREIMAGE_LAYOUT[k])
    ensures Diffs(a, b, k + 1) == Diffs(a, b, k) + DiffAt(a, b, PREIMAGE_LAYOUT[k])
  {
    FieldsWithin();
    hide PREIMAGE_LAYOUT;
  }

  lemma NoDiffs(a: Bytes, b: Bytes)
    requires |a| == |b| == PREIMAGE_LENGTH
    ensures Diffs(a, b, 0) == [] && |PREIMAGE_LAYOUT| == 14
  {
  }

  method CompareField(a: Bytes, b: Bytes, f: PreimageField, found: seq<FieldDiff>) returns (more: seq<FieldDiff>)
    requires |a| == |b| == PREIMAGE_LENGTH && Within(f)
    ensures more == found + DiffAt(a, b, f)
  {
    var x, y := a[f.offset..f.offset + f.size], b[f.offset..f.offset + f.size];
    more := found;
    if x != y { more := more + [FieldDiff(f, x, y)]; }
  }

  method ComparePreimages(a: Bytes, b: Bytes) returns (diffs: Option<seq<FieldDiff>>)
    ensures diffs.Some? <==> |a| == |b| == PREIMAGE_LENGTH
    ensures diffs.Some? ==> diffs.value == Diffs(a, b, 14)
  {
    if |a| != PREIMAGE_LENGTH || |b| != PREIMAGE_LENGTH { return None; }
    hide *;
    NoDiffs(a, b);
    var found := [];
    var k := 0;
    while k < |PREIMAGE_LAYOUT|
      invariant 0 <= k <= 14 && found == Diffs(a, b, k)
    {
      DiffsSnoc(a, b, k);
      found := CompareField(a, b, PREIMAGE_LAYOUT[k], found);
      k := k + 1;
    }
    return Some(found);
  }

  lemma {:induction false} SamePrefix(a: Bytes, b: Bytes, n: nat)
    requires |a| == |b| == PREIMAGE_LENGTH && n <= 14 && Diffs(a, b, n) == []
    ensures n > 0 ==> a[..End(n - 1)] == b[..End(n - 1)]
  {
    if n > 0 {
      SamePrefix(a, b, n - 1);
      var low, high := PREIMAGE_LAYOUT[n - 1].offset, End(n - 1);
      assert a[..low] == b[..low];
      assert a[..high] == a[..low] + a[low..high] && b[..high] == b[..low] + b[low..high];
    }
  }

  lemma {:induction false} SelfDiffs(a: Bytes, n: nat)
    requires |a| == PREIMAGE_LENGTH && n <= 14
    ensures Diffs(a, a, n) == []
  {
    if n > 0 {
      SelfDiffs(a, n - 1);
    }
  }

  /** No field differs exactly when the bytes are identical. */
  lemma CompareEmptyExactly(a: Bytes, b: Bytes)
    requires |a| == |b| == PREIMAGE_LENGTH
    ensures Diffs(a, b, 14) == [] <==> a == b
  {
    if Diffs(a, b, 14) == [] {
      SamePrefix(a, b, 14);
      assert a[..256] == a && b[..256] == b;
    }
    SelfDiffs(a, 14);
  }

  /** What a region of a preimage is named after. */
  function FieldBytes(name: FieldName, network: Bytes32, contract: Bytes32, c: Claim): Bytes {
    match name
    case MagicField => CLAIM_MAGIC
    case VersionField => BigEndian(WIRE_VERSION, 2)
    case NetworkField => network
    case ContractField => contract
    case IssuerField => c.issuer
    case ClaimTypeField => c.claimType
    case SubjectField => c.subject
    case PayloadHashField => c.payloadHash
    case EncodingField => [EncodingByte(c.payloadEncoding)]
    case ModeField => [ModeByte(c.mode)]
    case NonceField => BigEndian(c.nonce, 8)
    case ClaimIdField => c.claimId
    case IssuedAtField => BigEndian(c.issuedAt, 8)
    case ExpiresAtField => BigEndian(c.expiresAt, 8)
  }

  /** Each region holds the field it is named after. */
  lemma RegionHoldsItsField(network: Bytes32, contract: Bytes32, c: Claim, k: nat)
    requires k < 14
    ensures |Preimage(network, contract, c)| == PREIMAGE_LENGTH
    ensures RegionOf(Preimage(network, contract, c), k) == FieldBytes(PREIMAGE_LAYOUT[k].name, network, contract, c)
  {
    FieldAt(network, contract, c, k);
    hide Preimage, BigEndian, EncodingByte, ModeByte;
    assert Parts(network, contract, c)[k] == FieldBytes(PREIMAGE_LAYOUT[k].name, network, contract, c);
  }

  lemma {:induction false} DiffsExactly(a: Bytes, b: Bytes, n: nat, d: FieldDiff)
    requires |a| == |b| == PREIMAGE_LENGTH && n <= 14
    ensures
      d in Diffs(a, b, n)
      <==> exists k: nat :: k < n && d == FieldDiff(PREIMAGE_LAYOUT[k], RegionOf(a, k), RegionOf(b, k)) && RegionOf(a, k) != RegionOf(b, k)
  {
    hide RegionOf;
    if n > 0 {
      DiffsExactly(a, b, n - 1, d);
    }
  }

  /** In the layout's order, each region at most once. */
  lemma {:induction false} DiffsInOrder(a: Bytes, b: Bytes, n: nat)
    requires |a| == |b| == PREIMAGE_LENGTH && n <= 14
    ensures forall i, j :: 0 <= i < j < |Diffs(a, b, n)| ==> Diffs(a, b, n)[i].field.offset < Diffs(a, b, n)[j].field.offset
    ensures forall i :: 0 <= i < |Diffs(a, b, n)| && n < 14 ==> Diffs(a, b, n)[i].field.offset < PREIMAGE_LAYOUT[n].offset
  {
    hide RegionOf;
    if n > 0 {
      DiffsInOrder(a, b, n - 1);
    }
  }

  /**
   * Comparing two claims' preimages reports a field if and only if the claims differ in it, under that field's name and with
   * both sides' bytes; each once, in the layout's order.
   */
  lemma CompareNamesTheFields(n1: Bytes32, c1: Bytes32, x: Claim, n2: Bytes32, c2: Bytes32, y: Claim, name: FieldName)
    ensures
      var a, b := Preimage(n1, c1, x), Preimage(n2, c2, y);
      var one, other := FieldBytes(name, n1, c1, x), FieldBytes(name, n2, c2, y);
      && |a| == |b| == PREIMAGE_LENGTH
      && ((exists d :: d in Diffs(a, b, 14) && d.field.name == name) <==> one != other)
      && (forall d :: d in Diffs(a, b, 14) && d.field.name == name ==> d.a == one && d.b == other)
      && (forall i, j :: 0 <= i < j < |Diffs(a, b, 14)| ==> Diffs(a, b, 14)[i].field.offset < Diffs(a, b, 14)[j].field.offset)
  {
    var a, b := Preimage(n1, c1, x), Preimage(n2, c2, y);
    forall k: nat | k < 14
      ensures |a| == |b| == PREIMAGE_LENGTH
      ensures RegionOf(a, k) == FieldBytes(PREIMAGE_LAYOUT[k].name, n1, c1, x) && RegionOf(b, k) == FieldBytes(PREIMAGE_LAYOUT[k].name, n2, c2, y)
    {
      RegionHoldsItsField(n1, c1, x, k);
      RegionHoldsItsField(n2, c2, y, k);
    }
    LayoutLength(n1, c1, x);
    LayoutLength(n2, c2, y);
    hide Preimage, RegionOf, FieldBytes, Diffs;
    DiffsInOrder(a, b, 14);
    var k := PlaceOf(name);
    var d := FieldDiff(PREIMAGE_LAYOUT[k], RegionOf(a, k), RegionOf(b, k));
    DiffsExactly(a, b, 14, d);
    forall e | e in Diffs(a, b, 14) && e.field.name == name
      ensures e == d && RegionOf(a, k) != RegionOf(b, k)
    {
      DiffsExactly(a, b, 14, e);
      var m: nat :| m < 14 && e == FieldDiff(PREIMAGE_LAYOUT[m], RegionOf(a, m), RegionOf(b, m)) && RegionOf(a, m) != RegionOf(b, m);
      NamesDiffer(m, k);
    }
  }

  lemma LayoutLength(network: Bytes32, contract: Bytes32, c: Claim)
    ensures |Preimage(network, contract, c)| == PREIMAGE_LENGTH
  {
    FieldAt(network, contract, c, 0);
  }

  function PlaceOf(name: FieldName): (k: nat)
    ensures k < 14 && PREIMAGE_LAYOUT[k].name == name
  {
    match name
    case MagicField => 0 case VersionField => 1 case NetworkField => 2 case ContractField => 3 case IssuerField => 4
    case ClaimTypeField => 5 case SubjectField => 6 case PayloadHashField => 7 case EncodingField => 8 case ModeField => 9
    case NonceField => 10 case ClaimIdField => 11 case IssuedAtField => 12 case ExpiresAtField => 13
  }

  lemma NamesDiffer(m: nat, k: nat)
    requires m < 14 && k < 14 && PREIMAGE_LAYOUT[m].name == PREIMAGE_LAYOUT[k].name
    ensures m == k
  {
    assert PlaceOf(PREIMAGE_LAYOUT[m].name) == m && PlaceOf(PREIMAGE_LAYOUT[k].name) == k;
  }

  /**
   * From the client's claim to the bytes and back: the reader finds what the client wrote, raw as 0 and XDR as 1, a sequence
   * as mode 0 with its nonce and no id, an id as mode 1 with no nonce.
   */
  lemma ClientClaimIsRead(c: SdkClaim, network: Bytes32, contract: Bytes32)
    requires WellShaped(c)
    ensures
      DecodePreimage(Preimage(network, contract, WireClaim(c)))
      == Some(Decoded(network, contract, c.issuer, c.claimType, c.subject, c.payloadHash,
                      match c.payloadEncoding case Raw => 0 case Xdr => 1,
                      match c.replay case BySequence(_) => 0 case ById(_) => 1,
                      match c.replay case BySequence(nonce) => nonce case ById(_) => 0,
                      match c.replay case BySequence(_) => ZERO32 case ById(claimId) => claimId,
                      c.issuedAt, c.expiresAt))
  {
    DecodeInvertsEncode(network, contract, WireClaim(c));
    hide Preimage, DecodePreimage;
  }
}
