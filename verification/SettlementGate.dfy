/**
 * What must have happened before any money moves to a payee: two distinct signatures, and for every row an
 * attestation, under the key in force, of hours that earn exactly the row's amount.
 */
module SettlementGate {
  import opened Prelude
  import opened ByteStrings
  import opened OracleMessage
  import opened Escrow
  import opened ContractRuns

  /** Among the first `n` steps, `call` took effect with `who` signing. */
  ghost predicate Signed(h: Host, s0: Chain, tr: Trace, n: nat, call: Call, who: Address)
    requires n <= |tr|
  {
    exists i :: 0 <= i < n && Succeeds(h, s0, tr, i) && tr[i].call == call && who in tr[i].inv.auth
  }

  ghost predicate NoneBetween(h: Host, s0: Chain, tr: Trace, lo: nat, hi: nat, id: nat)
    requires hi <= |tr|
  {
    forall i :: lo <= i < hi && tr[i].call.RotateCall? && tr[i].call.id == id ==> !Succeeds(h, s0, tr, i)
  }

  ghost predicate UnapprovedUntil(h: Host, s0: Chain, tr: Trace, m: nat, id: nat)
    requires m <= |tr|
  {
    forall i :: 0 <= i < m && (tr[i].call == ManagerApproveCall(id) || tr[i].call == FinanceApproveCall(id)) ==> !Succeeds(h, s0, tr, i)
  }

  /** Step `m` attested row `k`: the hours earn the amount, and the signature is `key`'s over that row's own terms. */
  ghost predicate Attests(h: Host, tr: Trace, m: nat, id: nat, k: nat, key: Bytes, p: PaymentSchedule)
    requires m < |tr|
  {
    && tr[m].call.SubmitCall? && tr[m].call.sid == id && tr[m].call.pid == k
    && tr[m].call.hours * p.ratePerHour == p.amount && p.hoursLogged == tr[m].call.hours
    && h.ed25519(key, ProofMessage(h.digest, Proof(h, tr[m].call.sid, tr[m].call.pid, p, tr[m].call.hours, tr[m].call.nonce)), tr[m].call.sig)
  }

  /**
   * Among the first `n` steps, one attested row `k` under `key`; the key has not been rotated since, and no
   * approval came before it.
   */
  ghost predicate Attested(h: Host, s0: Chain, tr: Trace, n: nat, id: nat, k: nat, key: Bytes, p: PaymentSchedule)
    requires n <= |tr|
  {
    exists m :: 0 <= m < n && Succeeds(h, s0, tr, m) && Attests(h, tr, m, id, k, key, p)
      && NoneBetween(h, s0, tr, m, n, id) && UnapprovedUntil(h, s0, tr, m, id)
  }

  /** The escrow's creator passed row `k` in already marked proven, and no rotation has cleared it. */
  ghost predicate EnteredProven(h: Host, s0: Chain, tr: Trace, n: nat, id: nat, k: nat)
    requires n <= |tr|
  {
    exists c :: 0 <= c < n && Founds(h, s0, tr, c, id)
      && k < |tr[c].call.rows| && tr[c].call.rows[k].proofVerified
      && NoneBetween(h, s0, tr, c, n, id)
  }

  ghost predicate Gate(h: Host, s0: Chain, tr: Trace, n: nat, id: nat, e: CoreFlowEscrow)
    requires n <= |tr|
  {
    && (e.managerApproved ==> Signed(h, s0, tr, n, ManagerApproveCall(id), e.manager))
    && (e.financeApproved ==> Signed(h, s0, tr, n, FinanceApproveCall(id), e.financeApprover))
    && forall k :: 0 <= k < |e.payments| && e.payments[k].proofVerified ==>
         Attested(h, s0, tr, n, id, k, e.oraclePubkey, e.payments[k]) || EnteredProven(h, s0, tr, n, id, k)
  }

  // ----- what each kind of step shows of the escrow it names -----

  lemma ManagerApproveFacts(inv: Invocation, s: Chain, id: nat)
    requires ManagerApprove(inv, s, id).Ok?
    ensures id in s.escrows
    ensures s.escrows[id].manager in inv.auth
    ensures ManagerApprove(inv, s, id).value.escrow == s.escrows[id].(managerApproved := true)
  {
  }

  lemma FinanceApproveFacts(inv: Invocation, s: Chain, id: nat)
    requires FinanceApprove(inv, s, id).Ok?
    ensures id in s.escrows
    ensures s.escrows[id].financeApprover in inv.auth
    ensures FinanceApprove(inv, s, id).value.escrow == s.escrows[id].(financeApproved := true)
  {
  }

  lemma RotateFacts(inv: Invocation, s: Chain, id: nat, key: Bytes)
    requires RotateOracleKey(inv, s, id, key).Ok?
    ensures
      && id in s.escrows
      && var e, e' := s.escrows[id], RotateOracleKey(inv, s, id, key).value.escrow;
      && e'.managerApproved == e.managerApproved && e'.financeApproved == e.financeApproved
      && e'.manager == e.manager && e'.financeApprover == e.financeApprover
      && forall k :: 0 <= k < |e'.payments| ==> !e'.payments[k].proofVerified
  {
  }

  lemma SubmitFacts(h: Host, inv: Invocation, s: Chain, id: u32, pid: u32, hours: i128, nonce: u64, sig: Bytes)
    requires SubmitHoursProof(h, inv, s, id, pid, hours, nonce, sig).Ok?
    ensures
      && id in s.escrows
      && var e := s.escrows[id];
      && !e.managerApproved && !e.financeApproved && pid < |e.payments|
      && var p := e.payments[pid];
      && hours * p.ratePerHour == p.amount
      && h.ed25519(e.oraclePubkey, ProofMessage(h.digest, Proof(h, id, pid, p, hours, nonce)), sig)
      && nonce == NonceOf(s, id)
      && var eff := SubmitHoursProof(h, inv, s, id, pid, hours, nonce, sig).value;
      && eff.escrow == e.(payments := e.payments[pid := p.(hoursLogged := hours, proofVerified := true)])
      && eff.nonce == Some(nonce + 1) && nonce + 1 < U64_LIMIT
  {
    hide ProofMessage;
  }

  // ----- the gate is an invariant -----

  lemma SignedGrows(h: Host, s0: Chain, tr: Trace, n: nat, call: Call, who: Address)
    requires n < |tr| && Signed(h, s0, tr, n, call, who)
    ensures Signed(h, s0, tr, n + 1, call, who)
  {
  }

  lemma AttestedGrows(h: Host, s0: Chain, tr: Trace, n: nat, id: nat, k: nat, key: Bytes, p: PaymentSchedule)
    requires n < |tr| && Attested(h, s0, tr, n, id, k, key, p)
    requires tr[n].call.RotateCall? && tr[n].call.id == id ==> !Succeeds(h, s0, tr, n)
    ensures Attested(h, s0, tr, n + 1, id, k, key, p)
  {
    hide ProofMessage, Run, Do, Attests, UnapprovedUntil;
    var m :| 0 <= m < n && Succeeds(h, s0, tr, m) && Attests(h, tr, m, id, k, key, p)
      && NoneBetween(h, s0, tr, m, n, id) && UnapprovedUntil(h, s0, tr, m, id);
    assert NoneBetween(h, s0, tr, m, n + 1, id);
  }

  lemma EnteredGrows(h: Host, s0: Chain, tr: Trace, n: nat, id: nat, k: nat)
    requires n < |tr| && EnteredProven(h, s0, tr, n, id, k)
    requires tr[n].call.RotateCall? && tr[n].call.id == id ==> !Succeeds(h, s0, tr, n)
    ensures EnteredProven(h, s0, tr, n + 1, id, k)
  {
    hide Run, Succeeds;
    var c :| 0 <= c < n && Founds(h, s0, tr, c, id)
      && k < |tr[c].call.rows| && tr[c].call.rows[k].proofVerified
      && NoneBetween(h, s0, tr, c, n, id);
    assert NoneBetween(h, s0, tr, c, n + 1, id);
  }

  /** A step that keeps an escrow's flags, key and proofs keeps its gate, unless it is a rotation. */
  lemma GateKept(h: Host, s0: Chain, tr: Trace, n: nat, id: nat, e: CoreFlowEscrow, e': CoreFlowEscrow)
    requires n < |tr| && Gate(h, s0, tr, n, id, e)
    requires tr[n].call.RotateCall? && tr[n].call.id == id ==> !Succeeds(h, s0, tr, n)
    requires e'.managerApproved == e.managerApproved && e'.financeApproved == e.financeApproved
    requires e'.manager == e.manager && e'.financeApprover == e.financeApprover && e'.oraclePubkey == e.oraclePubkey
    requires |e'.payments| == |e.payments|
    requires forall k :: 0 <= k < |e.payments| ==>
               e'.payments[k].proofVerified == e.payments[k].proofVerified && e'.payments[k].hoursLogged == e.payments[k].hoursLogged
               && TermsOf(e'.payments[k]) == TermsOf(e.payments[k])
    ensures Gate(h, s0, tr, n + 1, id, e')
  {
    hide ProofMessage, Run;
    if e.managerApproved {
      SignedGrows(h, s0, tr, n, ManagerApproveCall(id), e.manager);
    }
    if e.financeApproved {
      SignedGrows(h, s0, tr, n, FinanceApproveCall(id), e.financeApprover);
    }
    forall k | 0 <= k < |e'.payments| && e'.payments[k].proofVerified
      ensures Attested(h, s0, tr, n + 1, id, k, e'.oraclePubkey, e'.payments[k]) || EnteredProven(h, s0, tr, n + 1, id, k)
    {
      if Attested(h, s0, tr, n, id, k, e.oraclePubkey, e.payments[k]) {
        AttestedGrows(h, s0, tr, n, id, k, e.oraclePubkey, e.payments[k]);
        AttestedSameTerms(h, s0, tr, n + 1, id, k, e.oraclePubkey, e.payments[k], e'.payments[k]);
      } else {
        EnteredGrows(h, s0, tr, n, id, k);
      }
    }
  }

  lemma AttestedSameTerms(h: Host, s0: Chain, tr: Trace, n: nat, id: nat, k: nat, key: Bytes, p: PaymentSchedule, p': PaymentSchedule)
    requires n <= |tr| && Attested(h, s0, tr, n, id, k, key, p)
    requires TermsOf(p') == TermsOf(p) && p'.hoursLogged == p.hoursLogged
    ensures Attested(h, s0, tr, n, id, k, key, p')
  {
    hide ProofMessage, Run;
    var m :| 0 <= m < n && Succeeds(h, s0, tr, m) && Attests(h, tr, m, id, k, key, p)
      && NoneBetween(h, s0, tr, m, n, id) && UnapprovedUntil(h, s0, tr, m, id);
    var c := tr[m].call;
    assert Proof(h, c.sid, c.pid, p', c.hours, c.nonce) == Proof(h, c.sid, c.pid, p, c.hours, c.nonce);
    assert Attests(h, tr, m, id, k, key, p');
  }

  /** While neither flag is set, no approval of the escrow has taken effect. */
  lemma NoApprovalsYet(h: Host, bal: Balances, tr: Trace, n: nat, id: nat)
    requires Admissible(h, tr) && n <= |tr|
    requires
      var s := Run(h, Genesis(bal), tr[..n]);
      id in s.escrows && !s.escrows[id].managerApproved && !s.escrows[id].financeApproved
    ensures UnapprovedUntil(h, Genesis(bal), tr, n, id)
  {
    hide EffectOf, Do, Run;
    var s0 := Genesis(bal);
    forall i | 0 <= i < n && (tr[i].call == ManagerApproveCall(id) || tr[i].call == FinanceApproveCall(id))
      ensures !Succeeds(h, s0, tr, i)
    {
      if Succeeds(h, s0, tr, i) {
        RunExtend(h, s0, tr, i);
        RunStructured(h, bal, tr[..i]);
        RunStructured(h, bal, tr[..i + 1]);
        ApprovalSetsFlag(h, Run(h, s0, tr[..i]), tr[i]);
        assert tr[..n] == tr[..i + 1] + tr[i + 1..n];
        RunSplit(h, s0, tr[..i + 1], tr[i + 1..n]);
        TermsAreImmutable(h, Run(h, s0, tr[..i + 1]), tr[i + 1..n], id);
      }
    }
  }

  lemma ApprovalSetsFlag(h: Host, s: Chain, st: Step)
    requires (st.call.ManagerApproveCall? || st.call.FinanceApproveCall?) && Do(h, s, st).0
    ensures
      var s' := Do(h, s, st).1;
      st.call.id in s'.escrows && (s'.escrows[st.call.id].managerApproved || s'.escrows[st.call.id].financeApproved)
  {
    OnEscrowStep(h, s, st);
    if st.call.ManagerApproveCall? {
      ManagerApproveFacts(st.inv, s, st.call.id);
    } else {
      FinanceApproveFacts(st.inv, s, st.call.id);
    }
  }

  /** One step's worth of the invariant, for the escrow the step names. */
  lemma GateAtTarget(h: Host, bal: Balances, tr: Trace, n: nat)
    requires Admissible(h, tr) && n < |tr| && tr[n].call.OnEscrow()
    requires
      var s := Run(h, Genesis(bal), tr[..n]);
      var id := Target(s, tr[n].call);
      && Structured(h, s) && EffectOf(h, s, tr[n]).Ok?
      && (id in s.escrows ==> Gate(h, Genesis(bal), tr, n, id, s.escrows[id]))
    ensures
      var s := Run(h, Genesis(bal), tr[..n]);
      Gate(h, Genesis(bal), tr, n + 1, Target(s, tr[n].call), EffectOf(h, s, tr[n]).value.escrow)
  {
    var s0 := Genesis(bal);
    var s := Run(h, s0, tr[..n]);
    var st := tr[n];
    var id := Target(s, st.call);
    OnEscrowStep(h, s, st);
    FourKinds(h, s, st);
    assert Succeeds(h, s0, tr, n);
    var e' := EffectOf(h, s, st).value.escrow;
    match st.call {
      case InitializeCall(m, f, key, rows) =>
        forall k | 0 <= k < |rows| && rows[k].proofVerified
          ensures EnteredProven(h, s0, tr, n + 1, id, k)
        {
          assert NoneBetween(h, s0, tr, n, n + 1, id);
        }
      case RotateCall(i, key) =>
        RotateFacts(st.inv, s, i, key);
        hide EffectOf, Do, Run;
        var e := s.escrows[id];
        if e.managerApproved { SignedGrows(h, s0, tr, n, ManagerApproveCall(id), e.manager); }
        if e.financeApproved { SignedGrows(h, s0, tr, n, FinanceApproveCall(id), e.financeApprover); }
      case SubmitCall(i, pid, hours, nonce, sig) =>
        GateAtSubmit(h, bal, tr, n);
      case ManagerApproveCall(i) =>
        ManagerApproveFacts(st.inv, s, i);
        hide EffectOf, Do, Run;
        GateKept(h, s0, tr, n, id, s.escrows[id], s.escrows[id]);
        assert Signed(h, s0, tr, n + 1, ManagerApproveCall(id), e'.manager);
      case FinanceApproveCall(i) =>
        FinanceApproveFacts(st.inv, s, i);
        hide EffectOf, Do, Run;
        GateKept(h, s0, tr, n, id, s.escrows[id], s.escrows[id]);
        assert Signed(h, s0, tr, n + 1, FinanceApproveCall(id), e'.financeApprover);
      case PayCall(i) =>
        hide EffectOf, Do, Run;
        GateKept(h, s0, tr, n, id, s.escrows[id], e');
      case CancelCall(i) =>
        hide EffectOf, Do, Run;
        GateKept(h, s0, tr, n, id, s.escrows[id], e');
    }
  }

  lemma GateAtSubmit(h: Host, bal: Balances, tr: Trace, n: nat)
    requires Admissible(h, tr) && n < |tr| && tr[n].call.SubmitCall?
    requires
      var s := Run(h, Genesis(bal), tr[..n]);
      && EffectOf(h, s, tr[n]).Ok?
      && (tr[n].call.sid in s.escrows ==> Gate(h, Genesis(bal), tr, n, tr[n].call.sid, s.escrows[tr[n].call.sid]))
    ensures Gate(h, Genesis(bal), tr, n + 1, tr[n].call.sid, EffectOf(h, Run(h, Genesis(bal), tr[..n]), tr[n]).value.escrow)
  {
    var s0 := Genesis(bal);
    var s := Run(h, s0, tr[..n]);
    var c := tr[n].call;
    var id, pid := c.sid, c.pid;
    OnEscrowStep(h, s, tr[n]);
    SubmitFacts(h, tr[n].inv, s, id, pid, c.hours, c.nonce, c.sig);
    hide ProofMessage, Run, EffectOf, Do;
    var e, e' := s.escrows[id], EffectOf(h, s, tr[n]).value.escrow;
    assert Succeeds(h, s0, tr, n);
    GateKept(h, s0, tr, n, id, e, e);
    NoApprovalsYet(h, bal, tr, n, id);
    forall k | 0 <= k < |e'.payments| && e'.payments[k].proofVerified
      ensures Attested(h, s0, tr, n + 1, id, k, e'.oraclePubkey, e'.payments[k]) || EnteredProven(h, s0, tr, n + 1, id, k)
    {
      if k == pid {
        var p, p' := e.payments[pid], e'.payments[pid];
        assert Proof(h, id, pid, p', c.hours, c.nonce) == Proof(h, id, pid, p, c.hours, c.nonce);
        assert Attests(h, tr, n, id, k, e'.oraclePubkey, p');
        assert NoneBetween(h, s0, tr, n, n + 1, id);
      } else {
        assert e'.payments[k] == e.payments[k];
      }
    }
  }

  /** A step that is not on this escrow, or that fails, leaves its gate as it was. */
  lemma GateElsewhere(h: Host, bal: Balances, tr: Trace, n: nat, id: nat)
    requires Admissible(h, tr) && n < |tr|
    requires
      var s := Run(h, Genesis(bal), tr[..n]);
      && Structured(h, s) && id in Do(h, s, tr[n]).1.escrows
      && (tr[n].call.OnEscrow() && EffectOf(h, s, tr[n]).Ok? ==> Target(s, tr[n].call) != id)
      && (id in s.escrows ==> Gate(h, Genesis(bal), tr, n, id, s.escrows[id]))
    ensures
      var s := Run(h, Genesis(bal), tr[..n]);
      id in s.escrows && Gate(h, Genesis(bal), tr, n + 1, id, Do(h, s, tr[n]).1.escrows[id])
  {
    hide Gate, Structured;
    var s0 := Genesis(bal);
    var s, st := Run(h, s0, tr[..n]), tr[n];
    if st.call.OnEscrow() {
      OnEscrowStep(h, s, st);
      if EffectOf(h, s, st).Ok? {
        FourKinds(h, s, st);
      }
    } else {
      OtherCallsKeep(h, s, st);
    }
    hide EffectOf, Do, Run;
    GateKept(h, s0, tr, n, id, s.escrows[id], s.escrows[id]);
  }

  /** The gate holds of every escrow after any number of steps of any run. */
  lemma {:induction false} GateHolds(h: Host, bal: Balances, tr: Trace, n: nat, id: nat)
    requires Admissible(h, tr) && n <= |tr| && id in Run(h, Genesis(bal), tr[..n]).escrows
    ensures Gate(h, Genesis(bal), tr, n, id, Run(h, Genesis(bal), tr[..n]).escrows[id])
  {
    hide Gate, Structured, EffectOf;
    if n > 0 {
      var s0 := Genesis(bal);
      var s, st := Run(h, s0, tr[..n - 1]), tr[n - 1];
      RunExtend(h, s0, tr, n - 1);
      RunStructured(h, bal, tr[..n - 1]);
      if id in s.escrows {
        GateHolds(h, bal, tr, n - 1, id);
      }
      if st.call.OnEscrow() && EffectOf(h, s, st).Ok? && Target(s, st.call) == id {
        OnEscrowStep(h, s, st);
        GateAtTarget(h, bal, tr, n - 1);
        FourKinds(h, s, st);
      } else {
        hide Do, Run;
        GateElsewhere(h, bal, tr, n - 1, id);
      }
    }
  }

  // ----- settlement -----

  /**
   * The settlement gate, over any run: when a batch is paid, the manager and a different finance approver have each
   * signed its approval, and every row was attested, before either approval, under the key in force at settlement
   * and not rotated since, for hours that earn exactly the row's amount. The only rows without such an attestation
   * are ones the creator passed in already marked as proven.
   */
  lemma PaidOnlyThroughTheGate(h: Host, bal: Balances, tr: Trace, j: nat)
    requires Admissible(h, tr) && j < |tr| && tr[j].call.PayCall? && Succeeds(h, Genesis(bal), tr, j)
    ensures
      var s0, id := Genesis(bal), tr[j].call.id;
      var s := Run(h, s0, tr[..j]);
      && id in s.escrows
      && var e := s.escrows[id];
      && e.manager != e.financeApprover
      && Signed(h, s0, tr, j, ManagerApproveCall(id), e.manager)
      && Signed(h, s0, tr, j, FinanceApproveCall(id), e.financeApprover)
      && 0 < |e.payments|
      && forall k :: 0 <= k < |e.payments| ==>
           Attested(h, s0, tr, j, id, k, e.oraclePubkey, e.payments[k]) || EnteredProven(h, s0, tr, j, id, k)
  {
    var s0, id := Genesis(bal), tr[j].call.id;
    var s := Run(h, s0, tr[..j]);
    RunStructured(h, bal, tr[..j]);
    OnEscrowStep(h, s, tr[j]);
    FourKinds(h, s, tr[j]);
    hide EffectOf, Do, Run;
    assert GoodEscrow(s.escrows[id]);
    GateHolds(h, bal, tr, j, id);
  }

  /** The call that created the escrow passed unproven rows, as the client does. */
  ghost predicate EntersUnproven(h: Host, s0: Chain, tr: Trace, id: nat) {
    forall i, k :: 0 <= i < |tr| && Founds(h, s0, tr, i, id) && 0 <= k < |tr[i].call.rows| ==> !tr[i].call.rows[k].proofVerified
  }

  /** Where rows enter unproven, every paid row carries an attestation. */
  lemma PaidRowsAreAttested(h: Host, bal: Balances, tr: Trace, j: nat, k: nat)
    requires Admissible(h, tr)
    requires j < |tr| && tr[j].call.PayCall? && Succeeds(h, Genesis(bal), tr, j)
    requires EntersUnproven(h, Genesis(bal), tr, tr[j].call.id)
    requires tr[j].call.id in Run(h, Genesis(bal), tr[..j]).escrows
    requires k < |Run(h, Genesis(bal), tr[..j]).escrows[tr[j].call.id].payments|
    ensures
      var e := Run(h, Genesis(bal), tr[..j]).escrows[tr[j].call.id];
      Attested(h, Genesis(bal), tr, j, tr[j].call.id, k, e.oraclePubkey, e.payments[k])
  {
    hide Do, Run;
    PaidOnlyThroughTheGate(h, bal, tr, j);
  }

  // ----- replay protection -----

  /** The nonces of the attestations an escrow accepted, in order. */
  function AcceptedNonces(h: Host, s0: Chain, tr: Trace, id: nat): seq<nat> {
    if tr == [] then []
    else
      var front, last := tr[..|tr| - 1], tr[|tr| - 1];
      AcceptedNonces(h, s0, front, id)
      + if last.call.SubmitCall? && last.call.sid == id && Do(h, Run(h, s0, front), last).0 then [last.call.nonce] else []
  }

  function UpTo(n: nat): seq<nat> {
    seq(n, i => i)
  }

  lemma NonceStep(h: Host, s: Chain, st: Step, id: nat)
    requires Structured(h, s) && (id !in s.escrows ==> id !in s.nonces)
    ensures
      var (ok, s') := Do(h, s, st);
      && (id !in s'.escrows ==> id !in s'.nonces)
      && if ok && st.call.SubmitCall? && st.call.sid == id
         then st.call.nonce == NonceOf(s, id) && NonceOf(s', id) == NonceOf(s, id) + 1 < U64_LIMIT
         else NonceOf(s', id) == NonceOf(s, id)
  {
    hide ProofMessage, PayRows, PayGuard, ShiftAllowed, Shift, Total, GoodEscrow;
    if st.call.OnEscrow() {
      OnEscrowStep(h, s, st);
      if EffectOf(h, s, st).Ok? {
        FourKinds(h, s, st);
        match st.call {
          case SubmitCall(i, pid, hours, nonce, sig) =>
            SubmitFacts(h, st.inv, s, i, pid, hours, nonce, sig);
            hide ProofMessage, EffectOf, Do;
          case InitializeCall(m, f, key, rows) => hide EffectOf, Do;
          case PayCall(_) => hide EffectOf, Do;
          case CancelCall(_) => hide EffectOf, Do;
          case RotateCall(_, _) =>
          case ManagerApproveCall(_) =>
          case FinanceApproveCall(_) =>
        }
      }
    } else {
      OtherCallsKeep(h, s, st);
      hide Do;
    }
  }

  /** Replay protection: the nonces an escrow accepts are exactly 0, 1, 2, ... in order, and never the last u64. */
  lemma {:induction false} NoncesInOrder(h: Host, bal: Balances, tr: Trace, id: nat)
    requires Admissible(h, tr)
    ensures
      var s := Run(h, Genesis(bal), tr);
      && (id !in s.escrows ==> id !in s.nonces)
      && AcceptedNonces(h, Genesis(bal), tr, id) == UpTo(NonceOf(s, id))
      && NonceOf(s, id) < U64_LIMIT
  {
    hide Do;
    if tr != [] {
      var front, last := tr[..|tr| - 1], tr[|tr| - 1];
      NoncesInOrder(h, bal, front, id);
      RunStructured(h, bal, front);
      NonceStep(h, Run(h, Genesis(bal), front), last, id);
      assert Run(h, Genesis(bal), tr) == Do(h, Run(h, Genesis(bal), front), last).1;
    }
  }
}
