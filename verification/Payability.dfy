/**
 * Which escrows can still be paid. Some reachable escrows never will be, whatever anyone does: the exact line, and the
 * run that pays on the right side of it.
 */
module Payability {
  import opened Prelude
  import opened ByteStrings
  import opened OracleMessage
  import opened Escrow
  import opened ContractRuns
  import opened SettlementGate
  import opened Solvency

  predicate AllProven(rows: Rows) {
    forall i :: 0 <= i < |rows| ==> rows[i].proofVerified
  }

  /** How many rows still want an attestation. */
  function Unproven(rows: Rows): nat {
    if rows == [] then 0
    else Unproven(rows[..|rows| - 1]) + if rows[|rows| - 1].proofVerified then 0 else 1
  }

  /**
   * The line: the escrow is open and no row of it is already marked finalized, its finance approver can sign, its
   * nonces suffice for the rows still unproven, and no approval stands before every row is proven.
   */
  predicate StillPayable(h: Host, s: Chain, id: nat)
    requires id in s.escrows
  {
    var e := s.escrows[id];
    && !e.cancelled && !AnyFinalized(e.payments)
    && e.financeApprover != h.contract
    && NonceOf(s, id) + Unproven(e.payments) < U64_LIMIT
    && (e.managerApproved || e.financeApproved ==> AllProven(e.payments))
  }

  lemma {:induction false} UnprovenZero(rows: Rows)
    ensures Unproven(rows) == 0 <==> AllProven(rows)
  {
    if rows != [] {
      var n := |rows| - 1;
      UnprovenZero(rows[..n]);
      forall i | 0 <= i < n ensures rows[..n][i] == rows[i] {
      }
    }
  }

  /** Proving one row leaves one fewer, or as many if it was proven already. */
  lemma {:induction false} UnprovenPut(rows: Rows, k: nat, p: PaymentSchedule)
    requires k < |rows| && p.proofVerified
    ensures Unproven(rows[k := p]) == Unproven(rows) - if rows[k].proofVerified then 0 else 1
  {
    var n := |rows| - 1;
    if k < n {
      UnprovenPut(rows[..n], k, p);
      assert rows[k := p][..n] == rows[..n][k := p];
    } else {
      assert rows[k := p][..n] == rows[..n];
    }
  }

  lemma {:induction false} UnprovenMonotone(rows: Rows, rows': Rows)
    requires |rows'| == |rows| && forall i :: 0 <= i < |rows| && rows'[i].proofVerified ==> rows[i].proofVerified
    ensures Unproven(rows') >= Unproven(rows)
  {
    if rows != [] {
      UnprovenMonotone(rows[..|rows| - 1], rows'[..|rows| - 1]);
    }
  }

  // ----- what else holds in every reachable state -----

  /** No outsider's role is held by the contract itself, and a pause has an administrator who can lift it. */
  ghost predicate Sane(h: Host, s: Chain) {
    && Structured(h, s) && s.escrowCount < U32_LIMIT
    && (s.admin.Some? ==> s.admin.value != h.contract) && (s.paused ==> s.admin.Some?)
    && (forall id :: id !in s.escrows ==> id !in s.nonces)
    && (forall id :: id in s.escrows ==> NonceOf(s, id) < U64_LIMIT)
    && (forall id :: id in s.escrows && s.escrows[id].financeApproved ==> s.escrows[id].financeApprover != h.contract)
  }

  lemma AdministerSane(h: Host, inv: Invocation, s: Chain, op: AdminOp)
    requires h.contract !in inv.auth
    requires (s.admin.Some? ==> s.admin.value != h.contract) && (s.paused ==> s.admin.Some?)
    ensures
      var s' := Administer(h, inv, s, op).1;
      (s'.admin.Some? ==> s'.admin.value != h.contract) && (s'.paused ==> s'.admin.Some?)
  {
  }

  lemma OnEscrowKeepsAdmin(h: Host, s: Chain, st: Step)
    requires Structured(h, s) && st.call.OnEscrow()
    ensures
      var s' := Do(h, s, st).1;
      s'.admin == s.admin && s'.paused == s.paused && s'.oracleKeys == s.oracleKeys
  {
    OnEscrowStep(h, s, st);
    hide EffectOf, Do;
  }

  lemma CountFits(h: Host, s: Chain, st: Step)
    requires Structured(h, s) && s.escrowCount < U32_LIMIT
    ensures Do(h, s, st).1.escrowCount < U32_LIMIT
  {
    if st.call.OnEscrow() {
      OnEscrowStep(h, s, st);
      if EffectOf(h, s, st).Ok? {
        FourKinds(h, s, st);
        hide EffectOf, Do;
      }
    } else {
      OtherCallsKeep(h, s, st);
    }
  }

  /** A finance approval is the finance approver's own. */
  lemma ApprovalIsSigned(h: Host, s: Chain, st: Step, id: nat)
    requires Structured(h, s) && Outside(h, st) && EntersUnpaid(st)
    requires forall i :: i in s.escrows && s.escrows[i].financeApproved ==> s.escrows[i].financeApprover != h.contract
    requires id in Do(h, s, st).1.escrows && Do(h, s, st).1.escrows[id].financeApproved
    ensures Do(h, s, st).1.escrows[id].financeApprover != h.contract
  {
    if st.call.OnEscrow() {
      OnEscrowStep(h, s, st);
      if EffectOf(h, s, st).Ok? && Target(s, st.call) == id {
        TargetAfter(h, s, st);
      } else if EffectOf(h, s, st).Ok? {
        FourKinds(h, s, st);
      }
      hide EffectOf, Do;
    } else {
      OtherCallsKeep(h, s, st);
    }
  }

  /** The escrow a successful call leaves, kind by kind. */
  lemma TargetAfter(h: Host, s: Chain, st: Step)
    requires Structured(h, s) && st.call.OnEscrow() && EffectOf(h, s, st).Ok?
    ensures
      var id, eff := Target(s, st.call), EffectOf(h, s, st).value;
      && eff.id == id
      && (!st.call.InitializeCall? ==> id in s.escrows)
      && match st.call
         case InitializeCall(m, f, key, rows) => eff.escrow == NewEscrow(m, f, key, rows) && eff.nonce == Some(0)
         case RotateCall(_, key) =>
           var e := s.escrows[id];
           && eff.escrow == e.(oraclePubkey := key, oracleRotations := e.oracleRotations + 1, payments := Revoked(e.payments))
           && eff.nonce == None
         case SubmitCall(_, pid, hours, nonce, _) =>
           var e := s.escrows[id];
           && !e.managerApproved && !e.financeApproved && pid < |e.payments|
           && eff.escrow == e.(payments := e.payments[pid := e.payments[pid].(hoursLogged := hours, proofVerified := true)])
           && nonce == NonceOf(s, id) && eff.nonce == Some(nonce + 1) && nonce + 1 < U64_LIMIT
         case ManagerApproveCall(_) => eff.escrow == s.escrows[id].(managerApproved := true) && eff.nonce == None
         case FinanceApproveCall(_) =>
           && eff.escrow == s.escrows[id].(financeApproved := true) && eff.nonce == None
           && s.escrows[id].financeApprover in st.inv.auth
         case PayCall(_) =>
           var e := s.escrows[id];
           && eff.escrow == e.(payments := WithStatus(e.payments, Finalized)) && eff.nonce == None
           && e.managerApproved && e.financeApproved && AllProven(e.payments) && !AnyFinalized(e.payments) && !e.cancelled
         case CancelCall(_) =>
           var e := s.escrows[id];
           && eff.escrow == e.(cancelled := true, payments := WithStatus(e.payments, Cancelled)) && eff.nonce == None
           && !AnyFinalized(e.payments)
  {
    FourKinds(h, s, st);
    hide PayRows, ShiftAllowed, Shift, Total, GoodEscrow, Creates, CreationEvents, PaidEvents, CancelEvents;
    match st.call {
      case InitializeCall(m, f, key, rows) =>
      case SubmitCall(i, pid, hours, nonce, sig) => SubmitFacts(h, st.inv, s, i, pid, hours, nonce, sig); hide EffectOf;
      case PayCall(id) => PayGuardNeverTraps(s.escrows[id].payments);
      case _ =>
    }
  }

  lemma StepSane(h: Host, s: Chain, st: Step)
    requires Sane(h, s) && Outside(h, st) && EntersUnpaid(st)
    ensures Sane(h, Do(h, s, st).1)
  {
    hide Do, EffectOf, Structured;
    StepStructured(h, s, st);
    CountFits(h, s, st);
    AdminSane(h, s, st);
    var s' := Do(h, s, st).1;
    forall id
      ensures id !in s'.escrows ==> id !in s'.nonces
      ensures id in s'.escrows ==> NonceOf(s', id) < U64_LIMIT
    {
      NonceStep(h, s, st, id);
      NonceFits(s, id);
    }
    forall id | id in s'.escrows && s'.escrows[id].financeApproved
      ensures s'.escrows[id].financeApprover != h.contract
    {
      ApprovalIsSigned(h, s, st, id);
    }
  }

  lemma NonceFits(s: Chain, id: nat)
    requires (id !in s.escrows ==> id !in s.nonces) && (id in s.escrows ==> NonceOf(s, id) < U64_LIMIT)
    ensures NonceOf(s, id) < U64_LIMIT
  {
  }

  lemma AdminSane(h: Host, s: Chain, st: Step)
    requires Structured(h, s) && Outside(h, st)
    requires (s.admin.Some? ==> s.admin.value != h.contract) && (s.paused ==> s.admin.Some?)
    ensures
      var s' := Do(h, s, st).1;
      (s'.admin.Some? ==> s'.admin.value != h.contract) && (s'.paused ==> s'.admin.Some?)
  {
    hide Administer, EffectOf, Structured;
    if st.call.OnEscrow() {
      OnEscrowKeepsAdmin(h, s, st);
    } else if st.call.AdminCall? {
      AdministerSane(h, st.inv, s, st.call.op);
    } else {
      OtherCallsKeep(h, s, st);
    }
  }

  lemma {:induction false} RunSane(h: Host, s: Chain, tr: Trace)
    requires Sane(h, s) && Admissible(h, tr)
    ensures Sane(h, Run(h, s, tr))
  {
    hide Do, Sane;
    if tr != [] {
      RunSane(h, s, tr[..|tr| - 1]);
      StepSane(h, Run(h, s, tr[..|tr| - 1]), tr[|tr| - 1]);
    }
  }

  lemma ReachableSane(h: Host, bal: Balances, tr: Trace)
    requires Admissible(h, tr)
    ensures Sane(h, Run(h, Genesis(bal), tr))
  {
    RunSane(h, Genesis(bal), tr);
    hide Run;
  }

  // ----- past the line there is no way back -----

  /** Rows that differ from stored ones in nothing but proofs and hours. */
  ghost predicate SameStatuses(rows: Rows, rows': Rows) {
    |rows'| == |rows| && forall i :: 0 <= i < |rows| ==> rows'[i].status == rows[i].status
  }

  lemma StatusesDecide(rows: Rows, rows': Rows)
    requires SameStatuses(rows, rows')
    ensures AnyFinalized(rows') == AnyFinalized(rows)
  {
    if AnyFinalized(rows) {
      var i :| 0 <= i < |rows| && rows[i].status == Finalized;
      assert rows'[i].status == Finalized;
    }
  }

  /** One step on this very escrow does not bring it back over the line. */
  lemma TargetStaysUnpayable(h: Host, s: Chain, st: Step)
    requires Sane(h, s) && st.call.OnEscrow() && EffectOf(h, s, st).Ok?
    requires Target(s, st.call) in s.escrows && !StillPayable(h, s, Target(s, st.call))
    ensures
      var s' := Commit(s, EffectOf(h, s, st));
      Target(s, st.call) in s'.escrows && !StillPayable(h, s', Target(s, st.call))
  {
    TargetAfter(h, s, st);
    hide EffectOf, AnyFinalized, AllProven;
    var id, eff := Target(s, st.call), EffectOf(h, s, st).value;
    var e := s.escrows[id];
    assert GoodEscrow(e);
    match st.call {
      case RotateCall(_, _) =>
        StatusesDecide(e.payments, eff.escrow.payments);
        UnprovenMonotone(e.payments, eff.escrow.payments);
        RevokedIsUnproven(e.payments);
      case SubmitCall(_, pid, hours, _, _) =>
        StatusesDecide(e.payments, eff.escrow.payments);
        UnprovenPut(e.payments, pid, e.payments[pid].(hoursLogged := hours, proofVerified := true));
      case ManagerApproveCall(_) =>
      case FinanceApproveCall(_) =>
      case PayCall(_) => UnprovenZero(e.payments);
      case CancelCall(_) =>
    }
  }

  lemma RevokedIsUnproven(rows: Rows)
    requires rows != []
    ensures !AllProven(Revoked(rows))
  {
    assert !Revoked(rows)[0].proofVerified;
  }

  lemma StaysUnpayable(h: Host, s: Chain, st: Step, id: nat)
    requires Sane(h, s) && Outside(h, st) && EntersUnpaid(st) && id in s.escrows && !StillPayable(h, s, id)
    ensures var s' := Do(h, s, st).1; id in s'.escrows && !StillPayable(h, s', id)
  {
    StepEvolves(h, s, st, id);
    if st.call.OnEscrow() {
      OnEscrowStep(h, s, st);
      if EffectOf(h, s, st).Ok? {
        FourKinds(h, s, st);
        if Target(s, st.call) == id {
          TargetStaysUnpayable(h, s, st);
        }
      }
    } else {
      OtherCallsKeep(h, s, st);
    }
    hide EffectOf, Do, AnyFinalized, AllProven, Unproven, Structured;
  }

  /** Past the line a settlement fails. */
  lemma UnpayableFails(h: Host, s: Chain, st: Step)
    requires Sane(h, s) && st.call.PayCall? && st.call.id in s.escrows && !StillPayable(h, s, st.call.id)
    ensures !Do(h, s, st).0
  {
    OnEscrowStep(h, s, st);
    if EffectOf(h, s, st).Ok? {
      TargetAfter(h, s, st);
      UnprovenZero(s.escrows[st.call.id].payments);
    }
  }

  /** From an unpayable state no continuation ever pays: not after other proofs, approvals, rotations or pauses. */
  lemma {:induction false} NeverPays(h: Host, s: Chain, more: Trace, id: nat)
    requires Sane(h, s) && Admissible(h, more) && id in s.escrows && !StillPayable(h, s, id)
    ensures Sane(h, Run(h, s, more)) && id in Run(h, s, more).escrows && !StillPayable(h, Run(h, s, more), id)
    ensures forall j :: 0 <= j < |more| && more[j].call == PayCall(id) ==> !Succeeds(h, s, more, j)
  {
    hide Do, Sane, StillPayable;
    if more != [] {
      var n := |more| - 1;
      NeverPays(h, s, more[..n], id);
      var mid := Run(h, s, more[..n]);
      StepSane(h, mid, more[n]);
      StaysUnpayable(h, mid, more[n], id);
      forall j | 0 <= j < |more| && more[j].call == PayCall(id)
        ensures !Succeeds(h, s, more, j)
      {
        if j < n {
          assert more[..n][..j] == more[..j];
          assert !Succeeds(h, s, more[..n], j);
        } else {
          UnpayableFails(h, mid, more[n]);
        }
      }
    }
  }

  // ----- before the line, the run that pays -----

  /** What the oracle signs for a row: the hours that earn its amount, under one nonce. */
  function RowMessage(h: Host, id: u32, k: u32, p: PaymentSchedule, nonce: u64): Bytes
    requires GoodRow(p)
  {
    ProofMessage(h.digest, Proof(h, id, k, p, p.amount / p.ratePerHour, nonce))
  }

  ghost predicate Signable(h: Host, key: Bytes, message: Bytes) {
    exists sig: Bytes :: h.ed25519(key, message, sig)
  }

  /** The key in force has a valid signature for every row still unproven, at whatever nonce the contract asks. */
  ghost predicate OracleAnswers(h: Host, id: u32, e: CoreFlowEscrow)
    requires GoodEscrow(e)
  {
    forall k: u32, nonce: u64 :: k < |e.payments| && !e.payments[k].proofVerified ==>
      Signable(h, e.oraclePubkey, RowMessage(h, id, k, e.payments[k], nonce))
  }

  /** A continuation that moves no money and leaves the escrow open, with every row proven where it was or since. */
  ghost predicate Prepares(h: Host, s: Chain, more: Trace, id: nat)
    requires id in s.escrows
  {
    var s' := Run(h, s, more);
    && Admissible(h, more) && id in s'.escrows
    && s'.balances == s.balances
    && var e, e' := s.escrows[id], s'.escrows[id];
    && e'.manager == e.manager && e'.financeApprover == e.financeApprover && e'.oraclePubkey == e.oraclePubkey
    && e'.cancelled == e.cancelled && SameTerms(e.payments, e'.payments) && SameStatuses(e.payments, e'.payments)
  }

  lemma {:induction false} PreparesChain(h: Host, s: Chain, a: Trace, b: Trace, id: nat)
    requires id in s.escrows && Prepares(h, s, a, id) && Prepares(h, Run(h, s, a), b, id)
    ensures Run(h, s, a + b) == Run(h, Run(h, s, a), b) && Prepares(h, s, a + b, id)
  {
    hide Run;
    RunSplit(h, s, a, b);
    var s1, s2 := Run(h, s, a), Run(h, s, a + b);
    SameTermsTrans(s.escrows[id].payments, s1.escrows[id].payments, s2.escrows[id].payments);
  }

  lemma RunOne(h: Host, s: Chain, st: Step)
    ensures Run(h, s, [st]) == Do(h, s, st).1
  {
    assert [st][..0] == [];
    assert Run(h, s, [st][..0]) == s;
    hide Do;
  }

  lemma Lifted(h: Host, s: Chain, id: nat) returns (more: Trace)
    requires Sane(h, s) && id in s.escrows
    ensures Prepares(h, s, more, id)
    ensures
      var s' := Run(h, s, more);
      Sane(h, s') && !s'.paused && s'.escrows == s.escrows && s'.nonces == s.nonces
  {
    if s.paused {
      var st := Step(Invocation({s.admin.value}, {}), AdminCall(SetPausedOp(false)));
      more := [st];
      RunOne(h, s, st);
      StepSane(h, s, st);
    } else {
      more := [];
    }
  }

  /** One row's attestation. */
  lemma ProvesOne(h: Host, s: Chain, id: u32, k: u32) returns (st: Step)
    requires Sane(h, s) && !s.paused && id in s.escrows
    requires
      var e := s.escrows[id];
      && GoodEscrow(e) && !e.cancelled && !e.managerApproved && !e.financeApproved
      && k < |e.payments| && !e.payments[k].proofVerified && OracleAnswers(h, id, e)
    requires NonceOf(s, id) + 1 < U64_LIMIT
    ensures
      var s', e := Do(h, s, st).1, s.escrows[id];
      && Prepares(h, s, [st], id) && Run(h, s, [st]) == s' && s'.paused == s.paused && id in s'.escrows
      && NonceOf(s', id) == NonceOf(s, id) + 1
      && exists hours: i128 ::
           s'.escrows[id] == e.(payments := e.payments[k := e.payments[k].(hoursLogged := hours, proofVerified := true)])
  {
    hide ProofMessage, Structured;
    var e := s.escrows[id];
    var p := e.payments[k];
    assert GoodRow(p);
    var hours := p.amount / p.ratePerHour;
    WholeHours(p.amount, p.ratePerHour);
    var nonce: u64 := NonceOf(s, id);
    assert Signable(h, e.oraclePubkey, RowMessage(h, id, k, p, nonce));
    var sig :| h.ed25519(e.oraclePubkey, RowMessage(h, id, k, p, nonce), sig);
    st := Step(Invocation({}, {}), SubmitCall(id, k, hours, nonce, sig));
    RunOne(h, s, st);
    OnEscrowStep(h, s, st);
    assert EffectOf(h, s, st).Ok?;
    hide Run;
  }

  lemma WholeHours(amount: int, rate: int)
    requires amount > 0 && rate > 0 && amount % rate == 0
    ensures amount / rate * rate == amount && 0 <= amount / rate <= amount
  {
    var hours := amount / rate;
    assert rate * hours == amount;
    Factor(hours, rate);
  }

  lemma Factor(hours: int, rate: int)
    requires rate > 0 && rate * hours > 0
    ensures hours * rate == rate * hours && 0 <= hours <= rate * hours
  {
    assert hours <= 0 ==> rate * hours <= 0;
  }

  /** Row after row from `k` on, until every row is proven. */
  lemma {:induction false} ProvesAll(h: Host, s: Chain, id: u32, k: nat) returns (more: Trace)
    requires Sane(h, s) && !s.paused && id in s.escrows
    requires
      var e := s.escrows[id];
      && GoodEscrow(e) && !e.cancelled && !e.managerApproved && !e.financeApproved && OracleAnswers(h, id, e)
      && k <= |e.payments| && (forall i :: 0 <= i < k ==> e.payments[i].proofVerified)
      && NonceOf(s, id) + Unproven(e.payments) < U64_LIMIT
    ensures Prepares(h, s, more, id)
    ensures var s' := Run(h, s, more); Sane(h, s') && !s'.paused && AllProven(s'.escrows[id].payments)
    decreases |s.escrows[id].payments| - k
  {
    hide Do, Run, Sane, Prepares, OracleAnswers;
    var e := s.escrows[id];
    if k == |e.payments| {
      more := [];
      NothingPrepares(h, s, id);
    } else if e.payments[k].proofVerified {
      more := ProvesAll(h, s, id, k + 1);
    } else {
      NeedsNonce(e.payments, k);
      var st := ProvesOne(h, s, id, k);
      var s1 := Run(h, s, [st]);
      var hours: i128 :| s1.escrows[id] == e.(payments := e.payments[k := e.payments[k].(hoursLogged := hours, proofVerified := true)]);
      UnprovenPut(e.payments, k, e.payments[k].(hoursLogged := hours, proofVerified := true));
      PreparedIsSane(h, s, [st], id);
      StillGood(h, s1, id);
      StillAnswers(h, id, e, k, hours);
      var rest := ProvesAll(h, s1, id, k + 1);
      PreparesChain(h, s, [st], rest, id);
      more := [st] + rest;
    }
  }

  lemma NothingPrepares(h: Host, s: Chain, id: nat)
    requires id in s.escrows
    ensures Run(h, s, []) == s && Prepares(h, s, [], id)
  {
  }

  lemma PreparedIsSane(h: Host, s: Chain, more: Trace, id: nat)
    requires Sane(h, s) && id in s.escrows && Prepares(h, s, more, id)
    ensures Sane(h, Run(h, s, more))
  {
    RunSane(h, s, more);
    hide Run, Sane;
  }

  lemma StillGood(h: Host, s: Chain, id: nat)
    requires Sane(h, s) && id in s.escrows
    ensures GoodEscrow(s.escrows[id]) && s.escrows[id].manager != h.contract && 1 <= id < U32_LIMIT
  {
    hide GoodEscrow;
  }

  lemma NeedsNonce(rows: Rows, k: nat)
    requires k < |rows| && !rows[k].proofVerified
    ensures Unproven(rows) >= 1
  {
    UnprovenZero(rows);
  }

  lemma StillAnswers(h: Host, id: u32, e: CoreFlowEscrow, k: nat, hours: i128)
    requires GoodEscrow(e) && OracleAnswers(h, id, e) && k < |e.payments|
    requires GoodEscrow(e.(payments := e.payments[k := e.payments[k].(hoursLogged := hours, proofVerified := true)]))
    ensures OracleAnswers(h, id, e.(payments := e.payments[k := e.payments[k].(hoursLogged := hours, proofVerified := true)]))
  {
    hide ProofMessage;
    var e' := e.(payments := e.payments[k := e.payments[k].(hoursLogged := hours, proofVerified := true)]);
    forall i: u32, nonce: u64 | i < |e'.payments| && !e'.payments[i].proofVerified
      ensures Signable(h, e'.oraclePubkey, RowMessage(h, id, i, e'.payments[i], nonce))
    {
      assert e'.payments[i] == e.payments[i] && GoodRow(e.payments[i]);
      assert Signable(h, e.oraclePubkey, RowMessage(h, id, i, e.payments[i], nonce));
    }
  }

  /** Whatever approvals are still missing, each with its own signature. */
  lemma Approves(h: Host, s: Chain, id: nat) returns (more: Trace)
    requires Sane(h, s) && !s.paused && id in s.escrows
    requires !s.escrows[id].cancelled && s.escrows[id].financeApprover != h.contract && AllProven(s.escrows[id].payments)
    ensures Prepares(h, s, more, id)
    ensures
      var s' := Run(h, s, more);
      && Sane(h, s') && !s'.paused
      && s'.escrows[id] == s.escrows[id].(managerApproved := true, financeApproved := true)
  {
    hide Run, Sane, Prepares;
    var a := ApprovesAs(h, s, id, true);
    PreparedIsSane(h, s, a, id);
    var s1 := Run(h, s, a);
    var b := ApprovesAs(h, s1, id, false);
    PreparedIsSane(h, s1, b, id);
    PreparesChain(h, s, a, b, id);
    more := a + b;
  }

  lemma ApprovesAs(h: Host, s: Chain, id: nat, byManager: bool) returns (more: Trace)
    requires Sane(h, s) && !s.paused && id in s.escrows
    requires !s.escrows[id].cancelled && s.escrows[id].financeApprover != h.contract
    ensures Prepares(h, s, more, id) && id in Run(h, s, more).escrows
    ensures
      var s', e := Run(h, s, more), s.escrows[id];
      && !s'.paused
      && s'.escrows[id] == if byManager then e.(managerApproved := true) else e.(financeApproved := true)
  {
    hide Structured;
    var e := s.escrows[id];
    StillGood(h, s, id);
    if if byManager then e.managerApproved else e.financeApproved {
      more := [];
    } else {
      var st := if byManager then Step(Invocation({e.manager}, {}), ManagerApproveCall(id))
                else Step(Invocation({e.financeApprover}, {}), FinanceApproveCall(id));
      more := [st];
      RunOne(h, s, st);
      OnEscrowStep(h, s, st);
      assert EffectOf(h, s, st).Ok?;
    }
  }

  lemma PreparedFacts(h: Host, s: Chain, more: Trace, id: nat)
    requires id in s.escrows && Prepares(h, s, more, id)
    ensures
      var s' := Run(h, s, more);
      && Admissible(h, more) && id in s'.escrows && s'.balances == s.balances
      && var e, e' := s.escrows[id], s'.escrows[id];
      && e'.manager == e.manager && e'.financeApprover == e.financeApprover && e'.cancelled == e.cancelled
      && SameTerms(e.payments, e'.payments) && AnyFinalized(e'.payments) == AnyFinalized(e.payments)
  {
    hide Run, AnyFinalized, SameTerms;
    StatusesDecide(s.escrows[id].payments, Run(h, s, more).escrows[id].payments);
  }

  // ----- exactly -----

  /** This continuation ends by paying the escrow out. */
  ghost predicate PaysLast(h: Host, s: Chain, more: Trace, id: nat) {
    && more != [] && Admissible(h, more)
    && more[|more| - 1].call == PayCall(id) && Succeeds(h, s, more, |more| - 1)
  }

  /** The preparation: lift a pause, prove what is unproven, approve what is not approved. */
  lemma PreparesPayment(h: Host, s: Chain, id: u32) returns (more: Trace)
    requires Sane(h, s) && id in s.escrows && StillPayable(h, s, id)
    requires GoodEscrow(s.escrows[id]) && OracleAnswers(h, id, s.escrows[id])
    ensures Prepares(h, s, more, id)
    ensures
      var s' := Run(h, s, more);
      && !s'.paused && s'.escrows[id].managerApproved && s'.escrows[id].financeApproved && AllProven(s'.escrows[id].payments)
  {
    hide Run, Sane, Prepares, OracleAnswers, AnyFinalized;
    var a := Lifted(h, s, id);
    var s1 := Run(h, s, a);
    assert s1.escrows[id] == s.escrows[id];
    var b := [];
    if AllProven(s1.escrows[id].payments) {
      NothingPrepares(h, s1, id);
    } else {
      assert NonceOf(s1, id) == NonceOf(s, id);
      b := ProvesAll(h, s1, id, 0);
    }
    PreparesChain(h, s, a, b, id);
    var s2 := Run(h, s1, b);
    PreparedIsSane(h, s, a + b, id);
    PreparedFacts(h, s, a + b, id);
    var c := Approves(h, s2, id);
    PreparesChain(h, s, a + b, c, id);
    more := a + b + c;
  }

  /** The exact line: from a reachable state some continuation pays the escrow if and only if it is still payable. */
  lemma SettleableExactly(h: Host, bal: Balances, tr: Trace, id: u32, holders: seq<Address>)
    requires Admissible(h, tr) && NonNegative(bal) && id in Run(h, Genesis(bal), tr).escrows
    requires SupplyFits(Run(h, Genesis(bal), tr).balances, holders) && h.contract in holders
    requires forall p :: p in Run(h, Genesis(bal), tr).escrows[id].payments ==> p.worker in holders
    requires var e := Run(h, Genesis(bal), tr).escrows[id]; GoodEscrow(e) ==> OracleAnswers(h, id, e)
    ensures
      var s := Run(h, Genesis(bal), tr);
      (exists more: Trace :: PaysLast(h, s, more, id)) <==> StillPayable(h, s, id)
  {
    hide Do, Run, Sane, StillPayable, OracleAnswers, Prepares, SupplyFits, GoodEscrow;
    var s := Run(h, Genesis(bal), tr);
    ReachableSane(h, bal, tr);
    StillGood(h, s, id);
    if StillPayable(h, s, id) {
      var more := PreparesPayment(h, s, id);
      PaysAfter(h, bal, tr, id, more, holders);
    } else {
      forall more: Trace ensures !PaysLast(h, s, more, id) {
        if Admissible(h, more) {
          NeverPays(h, s, more, id);
        }
      }
    }
  }

  /** Once prepared, the manager's settlement goes through. */
  lemma PaysAfter(h: Host, bal: Balances, tr: Trace, id: u32, more: Trace, holders: seq<Address>)
    requires Admissible(h, tr) && NonNegative(bal) && id in Run(h, Genesis(bal), tr).escrows
    requires SupplyFits(Run(h, Genesis(bal), tr).balances, holders) && h.contract in holders
    requires forall p :: p in Run(h, Genesis(bal), tr).escrows[id].payments ==> p.worker in holders
    requires Sane(h, Run(h, Genesis(bal), tr)) && StillPayable(h, Run(h, Genesis(bal), tr), id)
    requires Prepares(h, Run(h, Genesis(bal), tr), more, id)
    requires
      var s' := Run(h, Run(h, Genesis(bal), tr), more);
      !s'.paused && s'.escrows[id].managerApproved && s'.escrows[id].financeApproved && AllProven(s'.escrows[id].payments)
    ensures exists all: Trace :: PaysLast(h, Run(h, Genesis(bal), tr), all, id)
  {
    hide Run, Sane, SupplyFits, Prepares, SameTerms;
    var s := Run(h, Genesis(bal), tr);
    var s' := Run(h, s, more);
    PreparedFacts(h, s, more, id);
    StillGood(h, s, id);
    RunSplit(h, Genesis(bal), tr, more);
    var e, e' := s.escrows[id], s'.escrows[id];
    forall p | p in e'.payments ensures p.worker in holders {
      var i :| 0 <= i < |e'.payments| && e'.payments[i] == p;
      SameWorker(e.payments, e'.payments, i);
      assert e.payments[i] in e.payments;
    }
    var pay := Step(Invocation({e.manager}, {}), PayCall(id));
    SettlementExactly(h, bal, tr + more, pay.inv, id, holders);
    assert PayBatch(h, pay.inv, s', id).Ok?;
    OnEscrowStep(h, s', pay);
    var all := more + [pay];
    assert all[..|all| - 1] == more;
    assert PaysLast(h, s, all, id);
  }

  lemma SameWorker(rows: Rows, rows': Rows, i: nat)
    requires SameTerms(rows, rows') && i < |rows'|
    ensures i < |rows| && rows[i].worker == rows'[i].worker
  {
    assert TermsOf(rows'[i]) == TermsOf(rows[i]);
  }

  // ----- the other way out -----

  predicate StillRefundable(e: CoreFlowEscrow) {
    !e.cancelled && !AnyFinalized(e.payments)
  }

  /** This continuation ends by returning custody to the manager. */
  ghost predicate RefundsLast(h: Host, s: Chain, more: Trace, id: nat) {
    && more != [] && Admissible(h, more)
    && more[|more| - 1].call == CancelCall(id) && Succeeds(h, s, more, |more| - 1)
  }

  lemma StaysUnrefundable(h: Host, s: Chain, st: Step, id: nat)
    requires Sane(h, s) && Outside(h, st) && EntersUnpaid(st) && id in s.escrows && !StillRefundable(s.escrows[id])
    ensures var s' := Do(h, s, st).1; id in s'.escrows && !StillRefundable(s'.escrows[id])
    ensures st.call == CancelCall(id) ==> !Do(h, s, st).0
  {
    StepEvolves(h, s, st, id);
    if st.call.OnEscrow() {
      OnEscrowStep(h, s, st);
      if EffectOf(h, s, st).Ok? {
        FourKinds(h, s, st);
        if Target(s, st.call) == id {
          TargetAfter(h, s, st);
          EffectGood(h, s, st);
          StatusesSame(h, s, st);
        }
      }
    } else {
      OtherCallsKeep(h, s, st);
    }
    hide EffectOf, Do, AnyFinalized, Structured;
  }

  /** Only a settlement or a cancellation changes a row's status. */
  lemma StatusesSame(h: Host, s: Chain, st: Step)
    requires Sane(h, s) && st.call.OnEscrow() && EffectOf(h, s, st).Ok? && Target(s, st.call) in s.escrows
    requires !st.call.PayCall? && !st.call.CancelCall?
    ensures AnyFinalized(EffectOf(h, s, st).value.escrow.payments) == AnyFinalized(s.escrows[Target(s, st.call)].payments)
  {
    TargetAfter(h, s, st);
    hide EffectOf, AnyFinalized;
    StatusesDecide(s.escrows[Target(s, st.call)].payments, EffectOf(h, s, st).value.escrow.payments);
  }

  lemma {:induction false} NeverRefunded(h: Host, s: Chain, more: Trace, id: nat)
    requires Sane(h, s) && Admissible(h, more) && id in s.escrows && !StillRefundable(s.escrows[id])
    ensures Sane(h, Run(h, s, more)) && id in Run(h, s, more).escrows && !StillRefundable(Run(h, s, more).escrows[id])
    ensures forall j :: 0 <= j < |more| && more[j].call == CancelCall(id) ==> !Succeeds(h, s, more, j)
  {
    hide Do, Sane, StillRefundable;
    if more != [] {
      var n := |more| - 1;
      NeverRefunded(h, s, more[..n], id);
      StepSane(h, Run(h, s, more[..n]), more[n]);
      StaysUnrefundable(h, Run(h, s, more[..n]), more[n], id);
      forall j | 0 <= j < |more| && more[j].call == CancelCall(id)
        ensures !Succeeds(h, s, more, j)
      {
        if j < n {
          assert more[..n][..j] == more[..j];
          assert !Succeeds(h, s, more[..n], j);
        }
      }
    }
  }

  /**
   * Custody can still be returned exactly while the escrow is open and no row is marked finalized; approvals, proofs,
   * rotations and pauses never stop it. So an escrow past the line above can be cancelled, unless some of its rows entered
   * finalized: then nothing ever releases it.
   */
  lemma RefundableExactly(h: Host, bal: Balances, tr: Trace, id: nat, holders: seq<Address>)
    requires Admissible(h, tr) && NonNegative(bal) && id in Run(h, Genesis(bal), tr).escrows
    requires SupplyFits(Run(h, Genesis(bal), tr).balances, holders)
    ensures
      var s := Run(h, Genesis(bal), tr);
      (exists more: Trace :: RefundsLast(h, s, more, id)) <==> StillRefundable(s.escrows[id])
  {
    hide Do, Run, Sane, SupplyFits, AnyFinalized;
    var s := Run(h, Genesis(bal), tr);
    ReachableSane(h, bal, tr);
    StillGood(h, s, id);
    if StillRefundable(s.escrows[id]) {
      var st := Step(Invocation({s.escrows[id].manager}, {}), CancelCall(id));
      CancellationExactly(h, bal, tr, st.inv, id, holders);
      OnEscrowStep(h, s, st);
      RunOne(h, s, st);
      assert [st][..0] == [];
      NothingPrepares(h, s, id);
      assert RefundsLast(h, s, [st], id);
    } else {
      forall more: Trace ensures !RefundsLast(h, s, more, id) {
        if Admissible(h, more) {
          NeverRefunded(h, s, more, id);
        }
      }
    }
  }

  // ----- a row that enters finalized -----

  /** A stored escrow with some row marked finalized. */
  predicate Jammed(s: Chain, id: nat) {
    id in s.escrows && id <= s.escrowCount && AnyFinalized(s.escrows[id].payments)
  }

  lemma CreationLeavesOthers(h: Host, s: Chain, st: Step, id: nat)
    requires st.call.InitializeCall? && id in s.escrows && id <= s.escrowCount && EffectOf(h, s, st).Ok?
    ensures
      var s' := Commit(s, EffectOf(h, s, st));
      id in s'.escrows && s'.escrows[id] == s.escrows[id] && s.escrowCount <= s'.escrowCount
  {
    hide CheckRows, ShiftAllowed, Shift, CreationEvents, AnyFinalized;
  }

  /** It can neither be paid nor cancelled nor rotated, and proofs and approvals leave its rows' statuses. */
  lemma JammedTarget(h: Host, s: Chain, st: Step)
    requires st.call.OnEscrow() && !st.call.InitializeCall? && EffectOf(h, s, st).Ok? && Jammed(s, Target(s, st.call))
    ensures !st.call.PayCall? && !st.call.CancelCall?
    ensures Jammed(Commit(s, EffectOf(h, s, st)), Target(s, st.call))
  {
    hide PayRows, ShiftAllowed, Shift, Total, PaidEvents, CancelEvents, ProofMessage;
    var rows := s.escrows[Target(s, st.call)].payments;
    match st.call {
      case PayCall(_) => PayGuardNeverTraps(rows);
      case SubmitCall(_, _, _, _, _) => StatusesDecide(rows, EffectOf(h, s, st).value.escrow.payments);
      case _ =>
    }
  }

  lemma OthersUntouched(h: Host, s: Chain, st: Step, id: nat)
    requires st.call.OnEscrow() && !st.call.InitializeCall? && EffectOf(h, s, st).Ok? && Target(s, st.call) != id && id in s.escrows
    ensures
      var s' := Commit(s, EffectOf(h, s, st));
      id in s'.escrows && s'.escrows[id] == s.escrows[id] && s'.escrowCount == s.escrowCount
  {
    hide PayRows, PayGuard, ShiftAllowed, Shift, Total, PaidEvents, CancelEvents, ProofMessage, AnyFinalized;
  }

  lemma JammedStays(h: Host, s: Chain, st: Step, id: nat)
    requires Jammed(s, id)
    ensures Jammed(Do(h, s, st).1, id)
    ensures st.call == PayCall(id) || st.call == CancelCall(id) ==> !Do(h, s, st).0
  {
    hide AnyFinalized;
    if !st.call.OnEscrow() {
      OtherCallsKeep(h, s, st);
    } else {
      OnEscrowStep(h, s, st);
      if EffectOf(h, s, st).Ok? {
        if st.call.InitializeCall? {
          CreationLeavesOthers(h, s, st, id);
        } else if Target(s, st.call) == id {
          JammedTarget(h, s, st);
        } else {
          OthersUntouched(h, s, st, id);
        }
      }
    }
    hide EffectOf, Do;
  }

  /** A creation that goes through stores its rows as they were passed. */
  lemma FoundedAsPassed(h: Host, s: Chain, st: Step)
    requires st.call.InitializeCall? && Do(h, s, st).0
    ensures
      var s' := Do(h, s, st).1;
      s.escrowCount + 1 in s'.escrows && s'.escrowCount == s.escrowCount + 1 && s'.escrows[s.escrowCount + 1].payments == st.call.rows
  {
    hide CheckRows, ShiftAllowed, Shift, CreationEvents;
  }

  lemma {:induction false} FoundedJammed(h: Host, s: Chain, tr: Trace, i: nat, n: nat, id: nat)
    requires i < n <= |tr| && Founds(h, s, tr, i, id) && AnyFinalized(tr[i].call.rows)
    ensures Jammed(Run(h, s, tr[..n]), id)
  {
    hide Do, Run, AnyFinalized;
    RunExtend(h, s, tr, n - 1);
    if n == i + 1 {
      FoundedAsPassed(h, Run(h, s, tr[..i]), tr[i]);
    } else {
      FoundedJammed(h, s, tr, i, n - 1, id);
      JammedStays(h, Run(h, s, tr[..n - 1]), tr[n - 1], id);
    }
  }

  /**
   * An escrow accepted with any row marked finalized, even with every row so marked, is never paid and never cancelled: in
   * no run, from any state, with any calls and any signatures.
   */
  lemma EnteredFinalizedIsNeverReleased(h: Host, s: Chain, tr: Trace, i: nat, k: nat, id: nat)
    requires i < k < |tr| && Founds(h, s, tr, i, id) && AnyFinalized(tr[i].call.rows)
    ensures tr[k].call == PayCall(id) || tr[k].call == CancelCall(id) ==> !Succeeds(h, s, tr, k)
  {
    hide Do, Run, AnyFinalized;
    FoundedJammed(h, s, tr, i, k, id);
    JammedStays(h, Run(h, s, tr[..k]), tr[k], id);
  }

  // ----- how a funded escrow dies -----

  /** An approval that took effect stands in every later state. */
  lemma ApprovalStands(h: Host, bal: Balances, tr: Trace, a: nat, n: nat, id: nat)
    requires Admissible(h, tr) && a < n <= |tr|
    requires tr[a].call == ManagerApproveCall(id) || tr[a].call == FinanceApproveCall(id)
    requires Succeeds(h, Genesis(bal), tr, a)
    ensures
      var s := Run(h, Genesis(bal), tr[..n]);
      id in s.escrows && (s.escrows[id].managerApproved || s.escrows[id].financeApproved)
  {
    hide EffectOf, Do, Run;
    var s0 := Genesis(bal);
    RunExtend(h, s0, tr, a);
    RunStructured(h, bal, tr[..a + 1]);
    ApprovalSetsFlag(h, Run(h, s0, tr[..a]), tr[a]);
    assert tr[..n] == tr[..a + 1] + tr[a + 1..n];
    RunSplit(h, s0, tr[..a + 1], tr[a + 1..n]);
    TermsAreImmutable(h, Run(h, s0, tr[..a + 1]), tr[a + 1..n], id);
  }

  /** An approval standing over an unproven row bars every later settlement. */
  lemma ApprovedUnprovenNeverPays(h: Host, bal: Balances, tr: Trace, a: nat, n: nat, j: nat, id: nat, k: nat)
    requires Admissible(h, tr) && a < n <= j < |tr|
    requires tr[a].call == ManagerApproveCall(id) || tr[a].call == FinanceApproveCall(id)
    requires Succeeds(h, Genesis(bal), tr, a) && tr[j].call == PayCall(id)
    requires
      var s := Run(h, Genesis(bal), tr[..n]);
      id in s.escrows && k < |s.escrows[id].payments| && !s.escrows[id].payments[k].proofVerified
    ensures !Succeeds(h, Genesis(bal), tr, j)
  {
    hide EffectOf, Do, Run, Sane;
    ApprovalStands(h, bal, tr, a, n, id);
    ReachableSane(h, bal, tr[..n]);
    var s := Run(h, Genesis(bal), tr[..n]);
    assert !AllProven(s.escrows[id].payments);
    var more := tr[n..j + 1];
    NeverPays(h, s, more, id);
    assert more[j - n] == tr[j];
    assert tr[..j] == tr[..n] + more[..j - n];
    RunSplit(h, Genesis(bal), tr[..n], more[..j - n]);
    assert !Succeeds(h, s, more, j - n);
  }

  /**
   * First way to die: a row was still unproven when an approval took effect. Approving never looks at proofs, and a
   * standing approval bars new ones.
   */
  lemma ApprovedTooEarlyNeverPays(h: Host, bal: Balances, tr: Trace, a: nat, j: nat, id: nat, k: nat)
    requires Admissible(h, tr) && a < j < |tr|
    requires tr[a].call == ManagerApproveCall(id) || tr[a].call == FinanceApproveCall(id)
    requires Succeeds(h, Genesis(bal), tr, a) && tr[j].call == PayCall(id)
    requires
      var s := Run(h, Genesis(bal), tr[..a]);
      id in s.escrows && k < |s.escrows[id].payments| && !s.escrows[id].payments[k].proofVerified
    ensures !Succeeds(h, Genesis(bal), tr, j)
  {
    hide EffectOf, Do, Run;
    var s := Run(h, Genesis(bal), tr[..a]);
    RunExtend(h, Genesis(bal), tr, a);
    ApprovalProvesNothing(h, s, tr[a]);
    ApprovedUnprovenNeverPays(h, bal, tr, a, a + 1, j, id, k);
  }

  lemma ApprovalProvesNothing(h: Host, s: Chain, st: Step)
    requires (st.call.ManagerApproveCall? || st.call.FinanceApproveCall?) && Do(h, s, st).0
    ensures
      var s' := Do(h, s, st).1;
      st.call.id in s.escrows && st.call.id in s'.escrows && s'.escrows[st.call.id].payments == s.escrows[st.call.id].payments
  {
    OnEscrowStep(h, s, st);
    if st.call.ManagerApproveCall? {
      ManagerApproveFacts(st.inv, s, st.call.id);
    } else {
      FinanceApproveFacts(st.inv, s, st.call.id);
    }
  }

  /** Second way: the oracle key is rotated after an approval, which clears every proof and leaves the approval standing. */
  lemma RotatedAfterApprovalNeverPays(h: Host, bal: Balances, tr: Trace, a: nat, r: nat, j: nat, id: nat)
    requires Admissible(h, tr) && a < r < j < |tr|
    requires tr[a].call == ManagerApproveCall(id) || tr[a].call == FinanceApproveCall(id)
    requires tr[r].call.RotateCall? && tr[r].call.id == id && tr[j].call == PayCall(id)
    requires Succeeds(h, Genesis(bal), tr, a) && Succeeds(h, Genesis(bal), tr, r)
    ensures !Succeeds(h, Genesis(bal), tr, j)
  {
    hide EffectOf, Do, Run;
    RunExtend(h, Genesis(bal), tr, r);
    RunStructured(h, bal, tr[..r]);
    RotationClears(h, Run(h, Genesis(bal), tr[..r]), tr[r]);
    ApprovedUnprovenNeverPays(h, bal, tr, a, r + 1, j, id, 0);
  }

  lemma RotationClears(h: Host, s: Chain, st: Step)
    requires Structured(h, s) && st.call.RotateCall? && Do(h, s, st).0
    ensures
      var s' := Do(h, s, st).1;
      && st.call.id in s'.escrows && 0 < |s'.escrows[st.call.id].payments|
      && !s'.escrows[st.call.id].payments[0].proofVerified
  {
    OnEscrowStep(h, s, st);
    TargetAfter(h, s, st);
    assert GoodEscrow(s.escrows[st.call.id]);
    hide EffectOf, Do;
  }
}
