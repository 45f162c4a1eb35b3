/**
 * The 198-byte work-proof message (schema version 2): what the oracle signs and what the escrow
 * contract rebuilds from stored state. SHA-256 is the parameter `digest`; the theorems that need it
 * ask for 32-byte digests that do not collide on the addresses at hand.
 */
module OracleMessage {
  import opened Prelude
  import opened ByteStrings

  const PROOF_MAGIC: Bytes := [0x43, 0x46, 0x57, 0x50]
  const PROOF_VERSION: nat := 2
  const PROOF_MESSAGE_BYTES: nat := 198

  /** Everything one attestation is bound to. */
  datatype WorkProof = WorkProof(
    networkId: Bytes,
    contract: Address,
    worker: Address,
    token: Address,
    escrowId: u32,
    paymentId: u32,
    amount: i128,
    hours: i128,
    startDate: u64,
    endDate: u64,
    nonce: u64)

  /** The addresses a proof hashes. */
  function Hashed(p: WorkProof): set<Address> {
    {p.contract, p.worker, p.token}
  }

  /** On these addresses digests are 32 bytes and do not collide. */
  ghost predicate GoodDigest(digest: Address -> Bytes, addresses: set<Address>) {
    && (forall a :: a in addresses ==> |digest(a)| == 32)
    && (forall a, b :: a in addresses && b in addresses && digest(a) == digest(b) ==> a == b)
  }

  function ProofParts(digest: Address -> Bytes, p: WorkProof): (parts: seq<Bytes>)
    ensures |parts| == 13
  {
    [PROOF_MAGIC, BigEndian(PROOF_VERSION, 2), p.networkId,
     digest(p.contract), digest(p.worker), digest(p.token),
     BigEndian(p.escrowId, 4), BigEndian(p.paymentId, 4),
     I128Bytes(p.amount), I128Bytes(p.hours),
     BigEndian(p.startDate, 8), BigEndian(p.endDate, 8), BigEndian(p.nonce, 8)]
  }

  function ProofMessage(digest: Address -> Bytes, p: WorkProof): Bytes {
    Concat(ProofParts(digest, p))
  }

  lemma ProofMessageLength(digest: Address -> Bytes, p: WorkProof)
    requires GoodDigest(digest, Hashed(p)) && |p.networkId| == 32
    ensures |ProofMessage(digest, p)| == PROOF_MESSAGE_BYTES
  {
    var parts := ProofParts(digest, p);
    ConcatLength(parts);
    assert parts[0..] == parts && parts[13..] == [];
    LengthFrom(parts, 0);
    TailLength(parts, 6);
    LengthFrom(parts, 7);
  }

  /** The length of a tail of a list of parts. */
  lemma LengthFrom(parts: seq<Bytes>, k: nat)
    requires k + 6 <= |parts|
    ensures TotalLength(parts[k..]) ==
            |parts[k]| + |parts[k + 1]| + |parts[k + 2]| + |parts[k + 3]| + |parts[k + 4]| + |parts[k + 5]| + TotalLength(parts[k + 6..])
  {
    TailLength(parts, k);
    TailLength(parts, k + 1);
    TailLength(parts, k + 2);
    TailLength(parts, k + 3);
    TailLength(parts, k + 4);
    TailLength(parts, k + 5);
  }

  lemma TailLength(parts: seq<Bytes>, k: nat)
    requires k < |parts|
    ensures TotalLength(parts[k..]) == |parts[k]| + TotalLength(parts[k + 1..])
  {
    assert parts[k..][1..] == parts[k + 1..];
  }

  /**
   * Domain separation: two signed messages are equal only when every field is: network, deployment,
   * payee, asset, slot, amount, hours, period and nonce.
   */
  lemma ProofMessageInjective(digest: Address -> Bytes, p: WorkProof, q: WorkProof)
    requires GoodDigest(digest, Hashed(p) + Hashed(q)) && |p.networkId| == |q.networkId| == 32
    requires ProofMessage(digest, p) == ProofMessage(digest, q)
    ensures p == q
  {
    var ps, qs := ProofParts(digest, p), ProofParts(digest, q);
    ConcatInjective(ps, qs);
    WidthLimits();
    assert ps[2] == qs[2] && ps[3] == qs[3] && ps[4] == qs[4] && ps[5] == qs[5];
    assert ps[6] == qs[6] && ps[7] == qs[7] && ps[8] == qs[8] && ps[9] == qs[9];
    assert ps[10] == qs[10] && ps[11] == qs[11] && ps[12] == qs[12];
    BigEndianInjective(p.escrowId, q.escrowId, 4);
    BigEndianInjective(p.paymentId, q.paymentId, 4);
    I128Injective(p.amount, q.amount);
    I128Injective(p.hours, q.hours);
    BigEndianInjective(p.startDate, q.startDate, 8);
    BigEndianInjective(p.endDate, q.endDate, 8);
    BigEndianInjective(p.nonce, q.nonce, 8);
  }

  lemma {:induction false} PartAt(parts: seq<Bytes>, k: nat)
    requires k < |parts|
    ensures
      var at := TotalLength(parts[..k]);
      at + |parts[k]| <= |Concat(parts)| && Concat(parts)[at..at + |parts[k]|] == parts[k]
  {
    if k > 0 {
      PartAt(parts[1..], k - 1);
      assert parts[..k][1..] == parts[1..][..k - 1];
    }
  }

  /** The layout every signer and the contract share, field by field at its offset. */
  lemma ProofMessageLayout(digest: Address -> Bytes, p: WorkProof)
    requires GoodDigest(digest, Hashed(p)) && |p.networkId| == 32
    ensures
      var m := ProofMessage(digest, p);
      && |m| == PROOF_MESSAGE_BYTES
      && m[..4] == PROOF_MAGIC && FromBigEndian(m[4..6]) == PROOF_VERSION && m[6..38] == p.networkId
      && m[38..70] == digest(p.contract) && m[70..102] == digest(p.worker) && m[102..134] == digest(p.token)
      && FromBigEndian(m[134..138]) == p.escrowId && FromBigEndian(m[138..142]) == p.paymentId
      && FromTwosComplement(m[142..158]) == p.amount && FromTwosComplement(m[158..174]) == p.hours
      && FromBigEndian(m[174..182]) == p.startDate && FromBigEndian(m[182..190]) == p.endDate && FromBigEndian(m[190..198]) == p.nonce
  {
    ProofMessageLength(digest, p);
    WidthLimits();
    BigEndianReadsBack(PROOF_VERSION, 2);
    BigEndianReadsBack(p.escrowId, 4);
    BigEndianReadsBack(p.paymentId, 4);
    BigEndianReadsBack(p.startDate, 8);
    BigEndianReadsBack(p.endDate, 8);
    BigEndianReadsBack(p.nonce, 8);
    TwosComplementReadsBack(p.amount);
    TwosComplementReadsBack(p.hours);
    hide BigEndian, FromBigEndian, I128Bytes, FromTwosComplement, Concat;
    var parts := ProofParts(digest, p);
    forall k | 0 <= k < 13
      ensures
        var at := TotalLength(parts[..k]);
        at + |parts[k]| <= |Concat(parts)| && Concat(parts)[at..at + |parts[k]|] == parts[k]
    {
      PartAt(parts, k);
    }
    OffsetsOf(parts);
    hide TotalLength;
  }

  /** Where each of the thirteen parts begins. */
  lemma OffsetsOf(parts: seq<Bytes>)
    requires |parts| == 13 && |parts[0]| == 4 && |parts[1]| == 2 && |parts[2]| == |parts[3]| == |parts[4]| == |parts[5]| == 32
    requires |parts[6]| == |parts[7]| == 4 && |parts[8]| == |parts[9]| == 16 && |parts[10]| == |parts[11]| == |parts[12]| == 8
    ensures TotalLength(parts[..0]) == 0 && TotalLength(parts[..1]) == 4 && TotalLength(parts[..2]) == 6 && TotalLength(parts[..3]) == 38
    ensures TotalLength(parts[..4]) == 70 && TotalLength(parts[..5]) == 102 && TotalLength(parts[..6]) == 134 && TotalLength(parts[..7]) == 138
    ensures TotalLength(parts[..8]) == 142 && TotalLength(parts[..9]) == 158 && TotalLength(parts[..10]) == 174
    ensures TotalLength(parts[..11]) == 182 && TotalLength(parts[..12]) == 190
  {
    forall k | 0 <= k < 12 ensures TotalLength(parts[..k + 1]) == TotalLength(parts[..k]) + |parts[k]| {
      OneMorePart(parts, k);
    }
    hide TotalLength;
    assert TotalLength(parts[..0]) == 0 by { NoPartsLength(parts); }
  }

  lemma NoPartsLength(parts: seq<Bytes>)
    ensures TotalLength(parts[..0]) == 0
  {
  }

  lemma OneMorePart(parts: seq<Bytes>, k: nat)
    requires k < |parts|
    ensures TotalLength(parts[..k + 1]) == TotalLength(parts[..k]) + |parts[k]|
  {
    ConcatLength(parts[..k]);
    ConcatLength(parts[..k + 1]);
    ConcatAppend(parts[..k], parts[k]);
    assert parts[..k + 1] == parts[..k] + [parts[k]];
  }

  /** The signer's i128 writer: mask, then peel bytes off the low end into a buffer. */
  method I128BE(n: int) returns (b: array<byte>)
    ensures fresh(b) && b[..] == I128Bytes(n)
  {
    b := new byte[16];
    var v := Wrap128(n);
    var i := 15;
    while i >= 0
      invariant -1 <= i <= 15 && v >= 0
      invariant I128Bytes(n) == BigEndian(v, i + 1) + b[i + 1..]
    {
      ghost var tail := b[i + 1..];
      b[i] := v % 256;
      assert b[i..] == [v % 256] + tail;
      assert BigEndian(v, i + 1) + tail == BigEndian(v / 256, i) + b[i..];
      v := v / 256;
      i := i - 1;
    }
    assert b[0..] == b[..];
  }

  /** One `extend_from_array` call on the growing buffer: it holds the first `k` fields, then one more. */
  method Extend(m: Bytes, part: Bytes, ghost parts: seq<Bytes>, ghost k: nat) returns (m': Bytes)
    requires k < |parts| && part == parts[k] && m == Concat(parts[..k])
    ensures m' == m + part && m' == Concat(parts[..k + 1])
  {
    ConcatAppend(parts[..k], part);
    assert parts[..k + 1] == parts[..k] + [part];
    m' := m + part;
  }

  /** The contract's writer: one buffer, field after field appended to it. */
  method BuildProofMessage(digest: Address -> Bytes, p: WorkProof) returns (m: Bytes)
    ensures m == ProofMessage(digest, p)
  {
    ghost var parts := ProofParts(digest, p);
    m := [];
    m := Extend(m, PROOF_MAGIC, parts, 0);
    m := Extend(m, BigEndian(PROOF_VERSION, 2), parts, 1);
    m := Extend(m, p.networkId, parts, 2);
    m := Extend(m, digest(p.contract), parts, 3);
    m := Extend(m, digest(p.worker), parts, 4);
    m := Extend(m, digest(p.token), parts, 5);
    m := Extend(m, BigEndian(p.escrowId, 4), parts, 6);
    m := Extend(m, BigEndian(p.paymentId, 4), parts, 7);
    m := Extend(m, I128Bytes(p.amount), parts, 8);
    m := Extend(m, I128Bytes(p.hours), parts, 9);
    m := Extend(m, BigEndian(p.startDate, 8), parts, 10);
    m := Extend(m, BigEndian(p.endDate, 8), parts, 11);
    m := Extend(m, BigEndian(p.nonce, 8), parts, 12);
    assert parts[..13] == parts;
  }
}
