/**
 * Verifying signed claims: the issuer registry, replay protection in two modes, and what holds over any run of
 * register, revoke, rotate and verify.
 */
module Attest {
  import opened ByteStrings
  import opened ClaimFormat

  datatype AttestError =
    | IssuerNotRegistered | InvalidWindow | ClaimExpired | InvalidReplayFields | NonceMismatch | ClaimAlreadyUsed
    | NonceOverflow | IssuerAlreadyRegistered | IssuerNotFound

  /** An invalid signature aborts the invocation instead of returning an error. */
  datatype Outcome = Accepted | Rejected(error: AttestError) | Aborted

  /** Network, contract and crypto as the ledger supplies them; `timestamp` is the ledger's time at the call. */
  datatype Ledger = Ledger(network: Bytes32, contract: Bytes32, sha256: Bytes -> Bytes32, ed25519: (Bytes32, Bytes, Bytes) -> bool)

  /** Persistent storage: trusted issuers, the next nonce per scope digest, and the used (issuer, claim id) pairs. */
  datatype Store = Store(issuers: set<Bytes32>, sequences: map<Bytes32, u64>, used: set<(Bytes32, Bytes32)>)

  /** The digest of one sequence scope. */
  function ScopeKey(l: Ledger, issuer: Bytes32, claimType: Bytes32, subject: Bytes32): Bytes32 {
    l.sha256(issuer + claimType + subject)
  }

  function NextNonce(l: Ledger, s: Store, issuer: Bytes32, claimType: Bytes32, subject: Bytes32): u64 {
    var key := ScopeKey(l, issuer, claimType, subject);
    if key in s.sequences then s.sequences[key] else 0
  }

  // ----- the registry -----

  function Register(s: Store, issuer: Bytes32): (Outcome, Store) {
    if issuer in s.issuers then (Rejected(IssuerAlreadyRegistered), s)
    else (Accepted, s.(issuers := s.issuers + {issuer}))
  }

  function Revoke(s: Store, issuer: Bytes32): (Outcome, Store) {
    if issuer !in s.issuers then (Rejected(IssuerNotFound), s)
    else (Accepted, s.(issuers := s.issuers - {issuer}))
  }

  function Rotate(s: Store, outgoing: Bytes32, incoming: Bytes32): (Outcome, Store) {
    if outgoing !in s.issuers then (Rejected(IssuerNotFound), s)
    else if incoming in s.issuers then (Rejected(IssuerAlreadyRegistered), s)
    else (Accepted, s.(issuers := s.issuers + {incoming} - {outgoing}))
  }

  // ----- verification -----

  predicate ReplayFieldsMatch(c: Claim) {
    if c.mode == Sequence then c.claimId == ZERO32 else c.nonce == 0
  }

  /** Step 5: would this claim replay? */
  function CheckReplay(l: Ledger, s: Store, c: Claim): Outcome {
    if c.mode == Sequence then
      if c.nonce != NextNonce(l, s, c.issuer, c.claimType, c.subject) then Rejected(NonceMismatch) else Accepted
    else
      if (c.issuer, c.claimId) in s.used then Rejected(ClaimAlreadyUsed) else Accepted
  }

  /** Step 7: record the acceptance. */
  function Consume(l: Ledger, s: Store, c: Claim): (Outcome, Store) {
    if c.mode == Sequence then
      if c.nonce == U64_LIMIT - 1 then (Rejected(NonceOverflow), s)
      else (Accepted, s.(sequences := s.sequences[ScopeKey(l, c.issuer, c.claimType, c.subject) := c.nonce + 1]))
    else (Accepted, s.(used := s.used + {(c.issuer, c.claimId)}))
  }

  /** The ordered checks, then the signature over the rebuilt preimage, then the consumption. */
  function VerifyClaim(l: Ledger, s: Store, now: u64, c: Claim, signature: Bytes): (Outcome, Store) {
    if c.issuer !in s.issuers then (Rejected(IssuerNotRegistered), s)
    else if c.expiresAt <= c.issuedAt then (Rejected(InvalidWindow), s)
    else if now > c.expiresAt then (Rejected(ClaimExpired), s)
    else if !ReplayFieldsMatch(c) then (Rejected(InvalidReplayFields), s)
    else if c.payloadEncoding > 1 then (Rejected(InvalidReplayFields), s)
    else if CheckReplay(l, s, c) != Accepted then (CheckReplay(l, s, c), s)
    else if !l.ed25519(c.issuer, Preimage(l.network, l.contract, c), signature) then (Aborted, s)
    else Consume(l, s, c)
  }

  class AttestStore {
    const ledger: Ledger
    var issuers: set<Bytes32>
    var sequences: map<Bytes32, u64>
    var used: set<(Bytes32, Bytes32)>

    function Now(): Store
      reads this
    {
      Store(issuers, sequences, used)
    }

    constructor (ledger: Ledger)
      ensures Now() == EMPTY && this.ledger == ledger
    {
      this.ledger, issuers, sequences, used := ledger, {}, map[], {};
    }

    method RegisterIssuer(issuer: Bytes32) returns (o: Outcome)
      modifies this`issuers
      ensures (o, Now()) == Register(old(Now()), issuer)
    {
      if issuer in issuers { return Rejected(IssuerAlreadyRegistered); }
      issuers := issuers + {issuer};
      return Accepted;
    }

    method RevokeIssuer(issuer: Bytes32) returns (o: Outcome)
      modifies this`issuers
      ensures (o, Now()) == Revoke(old(Now()), issuer)
    {
      if issuer !in issuers { return Rejected(IssuerNotFound); }
      issuers := issuers - {issuer};
      return Accepted;
    }

    method RotateIssuer(outgoing: Bytes32, incoming: Bytes32) returns (o: Outcome)
      modifies this`issuers
      ensures (o, Now()) == Rotate(old(Now()), outgoing, incoming)
    {
      if outgoing !in issuers { return Rejected(IssuerNotFound); }
      if incoming in issuers { return Rejected(IssuerAlreadyRegistered); }
      issuers := issuers + {incoming};
      issuers := issuers - {outgoing};
      return Accepted;
    }

    /** The scope's digest input, appended field by field. */
    method Scope(c: Claim) returns (key: Bytes32)
      ensures key == ScopeKey(ledger, c.issuer, c.claimType, c.subject)
    {
      var m := c.issuer;
      m := m + c.claimType;
      m := m + c.subject;
      key := ledger.sha256(m);
    }

    method ConsumeClaim(c: Claim) returns (o: Outcome)
      modifies this`sequences, this`used
      ensures (o, Now()) == Consume(ledger, old(Now()), c)
    {
      if c.mode == Sequence {
        if c.nonce == U64_LIMIT - 1 { return Rejected(NonceOverflow); }
        var key := Scope(c);
        sequences := sequences[key := c.nonce + 1];
      } else {
        used := used + {(c.issuer, c.claimId)};
      }
      return Accepted;
    }

    method Verify(now: u64, c: Claim, signature: Bytes) returns (o: Outcome)
      modifies this`sequences, this`used
      ensures (o, Now()) == VerifyClaim(ledger, old(Now()), now, c, signature)
    {
      hide Preimage;
      if c.issuer !in issuers { return Rejected(IssuerNotRegistered); }
      if c.expiresAt <= c.issuedAt { return Rejected(InvalidWindow); }
      if now > c.expiresAt { return Rejected(ClaimExpired); }
      if !(if c.mode == Sequence then c.claimId == ZERO32 else c.nonce == 0) { return Rejected(InvalidReplayFields); }
      if c.payloadEncoding > 1 { return Rejected(InvalidReplayFields); }
      var replay := CheckReplay(ledger, Now(), c);
      if replay != Accepted { return replay; }
      var message := AppendPreimage(ledger.network, ledger.contract, c);
      if !ledger.ed25519(c.issuer, message, signature) { return Aborted; }
      o := ConsumeClaim(c);
    }
  }

  // ----- runs -----

  const EMPTY := Store({}, map[], {})

  datatype Op =
    | RegisterOp(issuer: Bytes32)
    | RevokeOp(issuer: Bytes32)
    | RotateOp(outgoing: Bytes32, incoming: Bytes32)
    | VerifyOp(time: u64, claim: Claim, signature: Bytes)

  function Do(l: Ledger, s: Store, op: Op): (Outcome, Store) {
    match op
    case RegisterOp(issuer) => Register(s, issuer)
    case RevokeOp(issuer) => Revoke(s, issuer)
    case RotateOp(a, b) => Rotate(s, a, b)
    case VerifyOp(time, c, signature) => VerifyClaim(l, s, time, c, signature)
  }

  function Run(l: Ledger, s: Store, ops: seq<Op>): Store {
    if ops == [] then s else Do(l, Run(l, s, ops[..|ops| - 1]), ops[|ops| - 1]).1
  }

  /** Operation `i` of the run was accepted. */
  predicate Succeeds(l: Ledger, s: Store, ops: seq<Op>, i: nat)
    requires i < |ops|
  {
    Do(l, Run(l, s, ops[..i]), ops[i]).0 == Accepted
  }

  /** A call that is rejected or aborts changes nothing. */
  lemma FailureChangesNothing(l: Ledger, s: Store, op: Op)
    requires Do(l, s, op).0 != Accepted
    ensures Do(l, s, op).1 == s
  {
    hide Preimage;
  }

  /** Exactly when a claim is accepted, in a given state. */
  lemma AcceptedExactly(l: Ledger, s: Store, now: u64, c: Claim, signature: Bytes)
    ensures
      VerifyClaim(l, s, now, c, signature).0 == Accepted
      <==>
      && c.issuer in s.issuers && c.issuedAt < c.expiresAt && now <= c.expiresAt && c.payloadEncoding <= 1
      && l.ed25519(c.issuer, Preimage(l.network, l.contract, c), signature)
      && match c.mode
         case Sequence =>
           && c.claimId == ZERO32 && c.nonce == NextNonce(l, s, c.issuer, c.claimType, c.subject) && c.nonce < U64_LIMIT - 1
         case UniqueId => c.nonce == 0 && (c.issuer, c.claimId) !in s.used
  {
    hide Preimage, ScopeKey;
  }

  /** Rotation replaces one issuer by one: the registry's size stays the same. */
  lemma RotateKeepsSize(s: Store, outgoing: Bytes32, incoming: Bytes32)
    ensures |Rotate(s, outgoing, incoming).1.issuers| == |s.issuers|
  {
    if outgoing in s.issuers && incoming !in s.issuers {
      assert |s.issuers + {incoming}| == |s.issuers| + 1;
    }
  }

  /** Replay state only moves forward, whatever happens to the registry: nothing used is forgotten, no nonce goes back. */
  lemma {:induction false} ReplayStateSurvives(l: Ledger, s: Store, ops: seq<Op>)
    ensures s.used <= Run(l, s, ops).used
    ensures forall key :: key in s.sequences ==> key in Run(l, s, ops).sequences && s.sequences[key] <= Run(l, s, ops).sequences[key]
  {
    hide Preimage, ScopeKey;
    if ops != [] {
      ReplayStateSurvives(l, s, ops[..|ops| - 1]);
    }
  }

  lemma {:induction false} RunSplit(l: Ledger, s: Store, a: seq<Op>, b: seq<Op>)
    ensures Run(l, s, a + b) == Run(l, Run(l, s, a), b)
  {
    hide Do;
    if b == [] {
      assert a + b == a;
    } else {
      var n := |b| - 1;
      RunSplit(l, s, a, b[..n]);
      assert (a + b)[..|a + b| - 1] == a + b[..n];
    }
  }

  /**
   * A unique-id claim is accepted at most once per (issuer, claim id), over any run, through any revocations,
   * re-registrations and rotations in between.
   */
  lemma AcceptedAtMostOnce(l: Ledger, s: Store, ops: seq<Op>, i: nat, j: nat)
    requires i < j < |ops| && ops[i].VerifyOp? && ops[j].VerifyOp?
    requires ops[i].claim.mode == UniqueId && ops[j].claim.mode == UniqueId
    requires ops[i].claim.issuer == ops[j].claim.issuer && ops[i].claim.claimId == ops[j].claim.claimId
    requires Succeeds(l, s, ops, i)
    ensures !Succeeds(l, s, ops, j)
  {
    var c := ops[i].claim;
    var before, after := Run(l, s, ops[..i]), Run(l, s, ops[..i + 1]);
    assert ops[..i + 1][..i] == ops[..i];
    AcceptedMarks(l, before, ops[i].time, c, ops[i].signature);
    assert ops[..j] == ops[..i + 1] + ops[i + 1..j];
    RunSplit(l, s, ops[..i + 1], ops[i + 1..j]);
    ReplayStateSurvives(l, after, ops[i + 1..j]);
    AcceptedExactly(l, Run(l, s, ops[..j]), ops[j].time, ops[j].claim, ops[j].signature);
    hide VerifyClaim, Preimage, Run;
  }

  lemma AcceptedMarks(l: Ledger, s: Store, now: u64, c: Claim, signature: Bytes)
    requires c.mode == UniqueId && VerifyClaim(l, s, now, c, signature).0 == Accepted
    ensures (c.issuer, c.claimId) in VerifyClaim(l, s, now, c, signature).1.used
  {
    hide Preimage, ScopeKey;
  }

  // ----- the registry, by its history -----

  predicate Enters(op: Op, issuer: Bytes32) {
    match op
    case RegisterOp(k) => k == issuer
    case RotateOp(_, k) => k == issuer
    case _ => false
  }

  predicate Leaves(op: Op, issuer: Bytes32) {
    match op
    case RevokeOp(k) => k == issuer
    case RotateOp(k, _) => k == issuer
    case _ => false
  }

  /** Operation `i` let the issuer in, by registration or as a rotation's new key, and none since took it out. */
  predicate TrustedSince(l: Ledger, ops: seq<Op>, issuer: Bytes32, i: nat) {
    && i < |ops| && Enters(ops[i], issuer) && Succeeds(l, EMPTY, ops, i)
    && forall j :: i < j < |ops| && Leaves(ops[j], issuer) ==> !Succeeds(l, EMPTY, ops, j)
  }

  predicate Trusted(l: Ledger, ops: seq<Op>, issuer: Bytes32) {
    exists i: nat :: i < |ops| && TrustedSince(l, ops, issuer, i)
  }

  lemma SucceedsInFront(l: Ledger, ops: seq<Op>, n: nat)
    requires n <= |ops|
    ensures forall i :: 0 <= i < n ==> Succeeds(l, EMPTY, ops[..n], i) == Succeeds(l, EMPTY, ops, i)
  {
    hide Do;
    forall i | 0 <= i < n ensures Succeeds(l, EMPTY, ops[..n], i) == Succeeds(l, EMPTY, ops, i) {
      assert ops[..n][..i] == ops[..i];
    }
  }

  /** One operation's effect on who is trusted. */
  lemma IssuerStep(l: Ledger, s: Store, op: Op, issuer: Bytes32)
    ensures
      var (o, s') := Do(l, s, op);
      issuer in s'.issuers
      <==> (o == Accepted && Enters(op, issuer)) || (issuer in s.issuers && !(o == Accepted && Leaves(op, issuer)))
    ensures Do(l, s, op).0 == Accepted && Enters(op, issuer) ==> !Leaves(op, issuer)
  {
    hide Preimage, ScopeKey, CheckReplay;
  }

  /** An issuer is trusted if and only if it was let in and not taken out since. */
  lemma {:induction false} RegistryExactly(l: Ledger, ops: seq<Op>, issuer: Bytes32)
    ensures issuer in Run(l, EMPTY, ops).issuers <==> Trusted(l, ops, issuer)
  {
    hide Do, Enters, Leaves;
    if ops != [] {
      var n := |ops| - 1;
      RegistryExactly(l, ops[..n], issuer);
      IssuerStep(l, Run(l, EMPTY, ops[..n]), ops[n], issuer);
      SucceedsInFront(l, ops, n);
      TrustedGrows(l, ops, issuer);
    }
  }

  lemma TrustedGrows(l: Ledger, ops: seq<Op>, issuer: Bytes32)
    requires ops != []
    requires
      var n := |ops| - 1;
      Succeeds(l, EMPTY, ops, n) && Enters(ops[n], issuer) ==> !Leaves(ops[n], issuer)
    ensures
      var n := |ops| - 1;
      Trusted(l, ops, issuer)
      <==> (Succeeds(l, EMPTY, ops, n) && Enters(ops[n], issuer))
           || (Trusted(l, ops[..n], issuer) && !(Succeeds(l, EMPTY, ops, n) && Leaves(ops[n], issuer)))
  {
    hide Succeeds, Enters, Leaves;
    var n := |ops| - 1;
    SucceedsInFront(l, ops, n);
    if Succeeds(l, EMPTY, ops, n) && Enters(ops[n], issuer) {
      assert TrustedSince(l, ops, issuer, n);
    } else if Trusted(l, ops[..n], issuer) && !(Succeeds(l, EMPTY, ops, n) && Leaves(ops[n], issuer)) {
      var i: nat :| i < n && TrustedSince(l, ops[..n], issuer, i);
      assert TrustedSince(l, ops, issuer, i);
    }
    if Trusted(l, ops, issuer) {
      var i: nat :| i < |ops| && TrustedSince(l, ops, issuer, i);
      if i < n {
        assert TrustedSince(l, ops[..n], issuer, i);
      }
    }
  }

  // ----- unique ids, by their history -----

  predicate Uses(op: Op, issuer: Bytes32, claimId: Bytes32) {
    op.VerifyOp? && op.claim.mode == UniqueId && op.claim.issuer == issuer && op.claim.claimId == claimId
  }

  predicate UsedBefore(l: Ledger, ops: seq<Op>, issuer: Bytes32, claimId: Bytes32) {
    exists i :: 0 <= i < |ops| && Uses(ops[i], issuer, claimId) && Succeeds(l, EMPTY, ops, i)
  }

  lemma UseStep(l: Ledger, s: Store, op: Op, issuer: Bytes32, claimId: Bytes32)
    ensures
      var (o, s') := Do(l, s, op);
      (issuer, claimId) in s'.used <==> (issuer, claimId) in s.used || (o == Accepted && Uses(op, issuer, claimId))
  {
    hide Preimage, ScopeKey;
  }

  /** A pair is used if and only if some claim with it was accepted. */
  lemma {:induction false} UsedExactly(l: Ledger, ops: seq<Op>, issuer: Bytes32, claimId: Bytes32)
    ensures (issuer, claimId) in Run(l, EMPTY, ops).used <==> UsedBefore(l, ops, issuer, claimId)
  {
    hide Do, Uses;
    if ops != [] {
      var n := |ops| - 1;
      UsedExactly(l, ops[..n], issuer, claimId);
      UseStep(l, Run(l, EMPTY, ops[..n]), ops[n], issuer, claimId);
      SucceedsInFront(l, ops, n);
      if UsedBefore(l, ops[..n], issuer, claimId) {
        var i :| 0 <= i < n && Uses(ops[..n][i], issuer, claimId) && Succeeds(l, EMPTY, ops[..n], i);
        assert Uses(ops[i], issuer, claimId) && Succeeds(l, EMPTY, ops, i);
      }
    }
  }

  // ----- sequences -----

  /** One sequence scope. */
  datatype Scope = Scope(issuer: Bytes32, claimType: Bytes32, subject: Bytes32)

  function ScopeOf(c: Claim): Scope {
    Scope(c.issuer, c.claimType, c.subject)
  }

  /** The 96 bytes that identify a scope: issuer, claim type, subject. */
  function ScopeText(scope: Scope): (m: Bytes)
    ensures |m| == 96
    ensures m[..32] == scope.issuer && m[32..64] == scope.claimType && m[64..] == scope.subject
  {
    scope.issuer + scope.claimType + scope.subject
  }

  /** SHA-256 does not collide on these two scopes' bytes. */
  predicate Apart(l: Ledger, a: Scope, b: Scope) {
    l.sha256(ScopeText(a)) == l.sha256(ScopeText(b)) ==> ScopeText(a) == ScopeText(b)
  }

  predicate InScope(op: Op, scope: Scope) {
    op.VerifyOp? && op.claim.mode == Sequence && ScopeOf(op.claim) == scope
  }

  /** Nor on this operation's scope and that one's. */
  predicate OpApart(l: Ledger, op: Op, scope: Scope) {
    op.VerifyOp? && op.claim.mode == Sequence ==> Apart(l, ScopeOf(op.claim), scope)
  }

  function NextIn(l: Ledger, s: Store, scope: Scope): u64 {
    NextNonce(l, s, scope.issuer, scope.claimType, scope.subject)
  }

  /** Two scopes share a counter only if they are the same: unlike bytes hash unlike. */
  lemma ScopeInputInjective(l: Ledger, a: Scope, b: Scope)
    requires Apart(l, a, b)
    ensures ScopeText(a) == ScopeText(b) <==> a == b
    ensures ScopeKey(l, a.issuer, a.claimType, a.subject) == ScopeKey(l, b.issuer, b.claimType, b.subject) <==> a == b
  {
  }

  lemma NonceStep(l: Ledger, s: Store, op: Op, scope: Scope)
    requires OpApart(l, op, scope)
    ensures
      var (o, s') := Do(l, s, op);
      var next, next' := NextIn(l, s, scope), NextIn(l, s', scope);
      if InScope(op, scope) && o == Accepted
      then op.claim.nonce == next && next' == next + 1 && next < U64_LIMIT - 1
      else next' == next
  {
    if op.VerifyOp? && op.claim.mode == Sequence {
      ScopeInputInjective(l, ScopeOf(op.claim), scope);
    }
    hide Preimage, ScopeKey, ScopeText;
  }

  /** A claim accepted for one (issuer, claim type, subject) leaves every other triple's counter where it was. */
  lemma ScopesAreIndependent(l: Ledger, s: Store, time: u64, c: Claim, signature: Bytes, other: Scope)
    requires ScopeOf(c) != other && Apart(l, ScopeOf(c), other)
    ensures NextIn(l, VerifyClaim(l, s, time, c, signature).1, other) == NextIn(l, s, other)
  {
    NonceStep(l, s, VerifyOp(time, c, signature), other);
    hide VerifyClaim, NextIn;
  }

  /** The nonces accepted for one scope, in order. */
  function AcceptedNonces(l: Ledger, ops: seq<Op>, scope: Scope): seq<nat> {
    if ops == [] then []
    else
      var n := |ops| - 1;
      AcceptedNonces(l, ops[..n], scope)
      + if InScope(ops[n], scope) && Do(l, Run(l, EMPTY, ops[..n]), ops[n]).0 == Accepted then [ops[n].claim.nonce] else []
  }

  function UpTo(n: nat): seq<nat> {
    seq(n, i => i)
  }

  /**
   * Over any run in which SHA-256 does not collide on the scopes in play, a scope's accepted nonces are exactly
   * 0, 1, 2, ... in order, and never the largest u64.
   */
  lemma {:induction false} NoncesInOrder(l: Ledger, ops: seq<Op>, scope: Scope)
    requires forall i :: 0 <= i < |ops| ==> OpApart(l, ops[i], scope)
    ensures AcceptedNonces(l, ops, scope) == UpTo(NextIn(l, Run(l, EMPTY, ops), scope))
    ensures forall n :: n in AcceptedNonces(l, ops, scope) ==> n < U64_LIMIT - 1
  {
    hide Do, ScopeKey, OpApart, InScope;
    if ops != [] {
      var n := |ops| - 1;
      NoncesInOrder(l, ops[..n], scope);
      NonceStep(l, Run(l, EMPTY, ops[..n]), ops[n], scope);
    }
  }

  // ----- every verdict, by the history -----

  /** Trusted issuer, open window, fields that fit the mode. */
  predicate WellMade(l: Ledger, ops: seq<Op>, now: u64, c: Claim) {
    && Trusted(l, ops, c.issuer) && c.issuedAt < c.expiresAt && now <= c.expiresAt && c.payloadEncoding <= 1
    && if c.mode == Sequence then c.claimId == seq(32, i => 0) else c.nonce == 0
  }

  /** What the signature is over: network, contract and the claim's fields, in the layout's order. */
  predicate Signed(l: Ledger, c: Claim, signature: Bytes) {
    l.ed25519(c.issuer, Preimage(l.network, l.contract, c), signature)
  }

  /** A claim not used before: the scope's next nonce, or an (issuer, claim id) never accepted. */
  predicate Unused(l: Ledger, ops: seq<Op>, c: Claim) {
    if c.mode == Sequence then c.nonce == |AcceptedNonces(l, ops, ScopeOf(c))| else !UsedBefore(l, ops, c.issuer, c.claimId)
  }

  lemma {:induction false} ZeroBytes(n: nat)
    ensures BigEndian(0, n) == seq(n, i => 0)
  {
    if n > 0 {
      ZeroBytes(n - 1);
    }
  }

  /**
   * Every answer to a claim presented after any run, in terms of that run alone: who has been let in and not taken out, how
   * many claims its scope has had accepted, whether its pair has been. The first failing requirement names the error.
   */
  lemma VerdictExactly(l: Ledger, ops: seq<Op>, now: u64, c: Claim, signature: Bytes)
    requires forall i :: 0 <= i < |ops| ==> OpApart(l, ops[i], ScopeOf(c))
    ensures
      var o := VerifyClaim(l, Run(l, EMPTY, ops), now, c, signature).0;
      && (o == Rejected(IssuerNotRegistered) <==> !Trusted(l, ops, c.issuer))
      && (o == Rejected(InvalidWindow) <==> Trusted(l, ops, c.issuer) && c.expiresAt <= c.issuedAt)
      && (o == Rejected(ClaimExpired) <==> Trusted(l, ops, c.issuer) && c.issuedAt < c.expiresAt < now)
      && (o == Rejected(InvalidReplayFields)
          <==> Trusted(l, ops, c.issuer) && c.issuedAt < c.expiresAt && now <= c.expiresAt && !WellMade(l, ops, now, c))
      && (o == Rejected(NonceMismatch) <==> WellMade(l, ops, now, c) && c.mode == Sequence && !Unused(l, ops, c))
      && (o == Rejected(ClaimAlreadyUsed) <==> WellMade(l, ops, now, c) && c.mode == UniqueId && !Unused(l, ops, c))
      && (o == Aborted <==> WellMade(l, ops, now, c) && Unused(l, ops, c) && !Signed(l, c, signature))
      && (o == Rejected(NonceOverflow)
          <==> WellMade(l, ops, now, c) && Unused(l, ops, c) && Signed(l, c, signature) && c.mode == Sequence && c.nonce == U64_LIMIT - 1)
      && (o == Accepted
          <==> WellMade(l, ops, now, c) && Unused(l, ops, c) && Signed(l, c, signature) && (c.mode == Sequence ==> c.nonce < U64_LIMIT - 1))
  {
    RegistryExactly(l, ops, c.issuer);
    UsedExactly(l, ops, c.issuer, c.claimId);
    NoncesInOrder(l, ops, ScopeOf(c));
    ZeroBytes(32);
    hide Preimage, ScopeKey, Run, Trusted, UsedBefore, AcceptedNonces, OpApart;
  }
}
