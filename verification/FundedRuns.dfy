/**
 * Funding end to end: from an eligible batch through the contract to the confirmation, over any run; and what that
 * confirmation does not vouch for.
 */
module FundedRuns {
  import opened Prelude
  import opened ByteStrings
  import opened Escrow
  import opened Custody
  import opened CoreFlowContract
  import opened ContractRuns
  import opened Eligibility
  import opened Confirmation

  /** This step executes the plan of an eligible batch on a ready chain. */
  ghost predicate ExecutesPlan(h: Host, s: Chain, st: Step, r: Request) {
    && Blockers(r) == [] && Storable(r) && Fundable(r)
    && ReadyChain(h, st.inv, s, r) && PeriodsSurviveRounding(r)
    && st.call == InitializeCall(r.wallet, r.financeApprover.value, r.oracleKey.value, Submitted(r))
  }

  /** One transfer of exactly the batch's total, from the funder to the contract, turned these balances into those. */
  ghost predicate MovesTotal(h: Host, inv: Invocation, before: Balances, after: Balances, r: Request) {
    r.asset.contractId.Some? && Transfer(before, inv, r.asset.contractId.value, r.wallet, h.contract, Sum(r.payments)) == Some(after)
  }

  lemma HasAsset(r: Request)
    requires Fundable(r)
    ensures r.asset.contractId.Some?
  {
  }

  lemma PlanIsAccepted(h: Host, s: Chain, st: Step, r: Request)
    requires ExecutesPlan(h, s, st, r)
    ensures
      var s' := Do(h, s, st).1;
      && Do(h, s, st).0 && s.escrowCount + 1 in s'.escrows
      && s'.escrows[s.escrowCount + 1] == NewEscrow(r.wallet, r.financeApprover.value, r.oracleKey.value, Submitted(r))
      && MovesTotal(h, st.inv, s.balances, s'.balances, r)
  {
    HasAsset(r);
    hide Blockers, Storable, Fundable, ReadyChain, Submitted, Transfer, Initialize, Do;
    EligibleIsAccepted(h, st.inv, s, r);
    PlanCommits(h, s, st, r);
  }

  lemma PlanCommits(h: Host, s: Chain, st: Step, r: Request)
    requires Fundable(r) && Storable(r)
    requires st.call == InitializeCall(r.wallet, r.financeApprover.value, r.oracleKey.value, Submitted(r))
    requires EffectOf(h, s, st).Ok?
    ensures
      var s', o := Do(h, s, st).1, EffectOf(h, s, st);
      && Do(h, s, st).0 && s'.balances == o.value.balances
      && s.escrowCount + 1 in s'.escrows
      && s'.escrows[s.escrowCount + 1] == NewEscrow(r.wallet, r.financeApprover.value, r.oracleKey.value, Submitted(r))
  {
    hide Submitted, CheckRows, ShiftAllowed, Shift, CreationEvents, Fundable, Storable;
    OnEscrowStep(h, s, st);
  }

  lemma SubmittedStays(r: Request, e: CoreFlowEscrow, e': CoreFlowEscrow)
    requires Fundable(r) && Storable(r) && Evolves(e, e')
    requires e == NewEscrow(r.wallet, r.financeApprover.value, r.oracleKey.value, Submitted(r))
    ensures AsSubmitted(e', r)
  {
    forall i | 0 <= i < |e'.payments|
      ensures e'.payments[i].worker == r.payments[i].recipient && e'.payments[i].token == r.asset.contractId.value
      ensures e'.payments[i].amount == r.payments[i].amount
    {
      assert TermsOf(e'.payments[i]) == TermsOf(e.payments[i]);
    }
  }

  /** With the funding transaction's evidence, and the escrow as it is, confirmation answers CONFIRMED with this escrow. */
  ghost predicate Confirms(h: Host, r: Request, network: string, hash: string, id: nat, e: CoreFlowEscrow,
                           others: seq<TransferFact>, claimed: Option<nat>, payments: seq<FundingPayment>) {
    && Fundable(r)
    && Judge(FundingRecord(hash, r, h.contract, network), FundingEvidence(hash, r, h.contract, id, e, others), claimed, payments)
       == Confirmed(id)
  }

  /** However the run goes on from the step that executed the plan, the escrow stays as submitted. */
  lemma PlanEndures(h: Host, s: Chain, st: Step, more: Trace, r: Request)
    requires Structured(h, s) && Outside(h, st) && EntersUnpaid(st) && Admissible(h, more) && ExecutesPlan(h, s, st, r)
    ensures
      var id, later := s.escrowCount + 1, Run(h, Do(h, s, st).1, more);
      id in later.escrows && Fundable(r) && Storable(r) && AsSubmitted(later.escrows[id], r)
  {
    hide Run, Do, Blockers, Storable, Fundable, ReadyChain, Submitted, Transfer, AsSubmitted, PeriodsSurviveRounding, Structured;
    PlanIsAccepted(h, s, st, r);
    StepStructured(h, s, st);
    var id, next := s.escrowCount + 1, Do(h, s, st).1;
    TermsAreImmutable(h, next, more, id);
    SubmittedStays(r, next.escrows[id], Run(h, next, more).escrows[id]);
  }

  /**
   * From eligible to confirmed, in any state a run reaches: executed on a ready chain, the plan of an eligible batch whose
   * periods survive rounding is accepted and moves exactly the total in one transfer; and however the run goes on, after
   * whatever proofs, approvals, rotations or settlement, confirmation answers CONFIRMED with that escrow if and only if it
   * has not been cancelled.
   */
  lemma EligibleIsConfirmed(h: Host, s: Chain, st: Step, more: Trace, r: Request, network: string, hash: string,
                            others: seq<TransferFact>, claimed: Option<nat>, payments: seq<FundingPayment>)
    requires Structured(h, s) && Outside(h, st) && EntersUnpaid(st) && Admissible(h, more) && ExecutesPlan(h, s, st, r)
    requires StillPlanned(r, payments) && (claimed.Some? ==> claimed.value == s.escrowCount + 1)
    ensures
      var id, next := s.escrowCount + 1, Do(h, s, st).1;
      var later := Run(h, next, more);
      && Do(h, s, st).0 && MovesTotal(h, st.inv, s.balances, next.balances, r)
      && id in later.escrows
      && (Confirms(h, r, network, hash, id, later.escrows[id], others, claimed, payments) <==> !later.escrows[id].cancelled)
  {
    hide Run, Do, Judge, ExecutesPlan, FundingRecord, FundingEvidence, AsSubmitted, StillPlanned, Fundable, Storable, MovesTotal, Structured;
    PlanIsAccepted(h, s, st, r);
    PlanEndures(h, s, st, more, r);
    var id := s.escrowCount + 1;
    var e := Run(h, Do(h, s, st).1, more).escrows[id];
    JudgedAsPlanned(hash, r, h.contract, network, id, e, others, claimed, payments);
  }

  /** The row a plan row becomes on its way to the contract: its own terms, unproven and pending. */
  predicate Carries(p: PaymentSchedule, row: PlanRow, i: nat) {
    && p.worker == row.worker && p.token == row.token && p.amount == row.amount && p.ratePerHour == row.rate
    && p.startDate == row.start && p.endDate == row.end
    && p.id == i + 1 && p.hoursLogged == 0 && !p.proofVerified && p.status == Pending
  }

  /**
   * What is signed is what was planned: the plan names the batch's payments in order, with their payees, amounts and rates,
   * the one asset, the total, and periods in whole seconds not after the stored ones; and the call carries it row by row.
   */
  lemma SubmittedIsThePlan(r: Request, contract: Address, network: string)
    requires Fundable(r) && Storable(r)
    ensures
      var plan, rows := BuildFundingPlan(r, contract, network), Submitted(r);
      && plan.contractId == plan.custody == contract && plan.network == network
      && plan.manager == r.wallet && Some(plan.financeApprover) == r.financeApprover && Some(plan.oracleKey) == r.oracleKey
      && Some(plan.asset) == r.asset.contractId && plan.total == Total(rows)
      && |plan.rows| == |rows| == |r.payments|
      && forall i :: 0 <= i < |rows| ==>
           var p, row := r.payments[i], plan.rows[i];
           && row.paymentId == p.id && row.worker == p.recipient && row.token == plan.asset && row.amount == p.amount && row.rate == p.rate
           && p.periodStart.Some? && 1000 * row.start <= p.periodStart.value < 1000 * row.start + 1000
           && p.periodEnd.Some? && 1000 * row.end <= p.periodEnd.value < 1000 * row.end + 1000
           && Carries(rows[i], row, i)
  {
    SubmittedSum(r);
    hide Total, Sum, TokenSum;
    forall i | 0 <= i < |r.payments| ensures FundableRow(r, r.payments[i]) {
      StorableFits(r, i);
    }
  }

  // ----- what confirmation does not compare -----

  /** The same workers, tokens and amounts at another rate and period, entered already proven. */
  function Altered(rows: Rows): (r: Rows)
    requires forall i :: 0 <= i < |rows| ==> rows[i].amount > 0
    ensures |r| == |rows|
  {
    seq(|rows|, i requires 0 <= i < |rows| =>
      rows[i].(ratePerHour := rows[i].amount, startDate := 0, endDate := 1, hoursLogged := 1, proofVerified := true))
  }

  lemma AlteredPasses(rows: Rows)
    requires Positive(rows) && Total(rows) < I128_LIMIT
    ensures CheckRows(Altered(rows)).Ok?
    ensures Tokens(Altered(rows)) == Tokens(rows) && forall t :: TokenSum(Altered(rows), t) == TokenSum(rows, t)
  {
    hide CheckRows, Total, TokenSum;
    SameAmounts(rows, Altered(rows));
    CheckRowsPasses(Altered(rows));
    forall i | 0 <= i < |rows| ensures Altered(rows)[i].amount % Altered(rows)[i].ratePerHour == 0 {
      OwnMultiple(rows[i].amount);
    }
  }

  lemma OwnMultiple(amount: int)
    requires amount > 0
    ensures amount % amount == 0
  {
  }

  lemma AlteredMoves(bal: Balances, inv: Invocation, rows: Rows, from: Address, to: Address)
    requires Positive(rows) && Total(rows) < I128_LIMIT && ShiftAllowed(bal, inv, rows, from, to)
    ensures ShiftAllowed(bal, inv, Altered(rows), from, to)
  {
    hide CheckRows, Total, TokenSum, Altered, Tokens;
    AlteredPasses(rows);
    forall t | t in Tokens(Altered(rows)) ensures TokenMoves(bal, inv, Altered(rows), t, from, to) {
      assert TokenMoves(bal, inv, rows, t, from, to);
    }
  }

  lemma AlteredIsAccepted(h: Host, inv: Invocation, s: Chain, r: Request, key: Bytes)
    requires Fundable(r) && Storable(r) && ReadyChain(h, inv, s, r) && OracleAccepted(s, key)
    ensures Positive(Submitted(r))
    ensures
      var o := Initialize(h, inv, s, r.wallet, r.financeApprover.value, key, Altered(Submitted(r)));
      o.Ok? && o.value.escrow == NewEscrow(r.wallet, r.financeApprover.value, key, Altered(Submitted(r)))
  {
    SubmittedSum(r);
    SubmittedFits(r);
    OneTransfer(h, inv, s, r);
    var rows := Submitted(r);
    hide Submitted, CreationEvents, Storable, CheckRows, Total, TokenSum, ShiftAllowed, Shift, Altered, Positive, Transfer, FundableRow;
    AlteredPasses(rows);
    AlteredMoves(s.balances, inv, rows, r.wallet, h.contract);
  }

  lemma SubmittedFits(r: Request)
    requires Fundable(r) && Storable(r)
    ensures Total(Submitted(r)) < I128_LIMIT && 0 < |Submitted(r)| <= MAX_BATCH_SIZE
  {
    var rows := Submitted(r);
    SubmittedSums(r, rows, |rows|);
    assert rows[..|rows|] == rows && r.payments[..|rows|] == r.payments;
  }

  /**
   * A CONFIRMED escrow may differ from its plan in what is not compared: rates, periods, the oracle key and whether rows
   * entered proven. On the same ready chain the contract takes such rows, under any key it accepts, and confirmation
   * answers as for the plan.
   */
  lemma ConfirmedMayDiffer(h: Host, inv: Invocation, s: Chain, r: Request, key: Bytes, network: string, hash: string,
                           others: seq<TransferFact>, id: nat)
    requires Fundable(r) && Storable(r) && DistinctIds(r.payments) && ReadyChain(h, inv, s, r) && OracleAccepted(s, key)
    ensures Positive(Submitted(r))
    ensures
      var rows := Altered(Submitted(r));
      var o := Initialize(h, inv, s, r.wallet, r.financeApprover.value, key, rows);
      && o.Ok? && o.value.escrow.oraclePubkey == key && o.value.escrow.payments == rows
      && (forall i :: 0 <= i < |rows| ==> rows[i].proofVerified && rows[i].ratePerHour == rows[i].amount && rows[i].endDate == 1)
      && Confirms(h, r, network, hash, id, o.value.escrow, others, None, r.payments)
  {
    AlteredIsAccepted(h, inv, s, r, key);
    AlteredIsAsSubmitted(r, key);
    OwnPayments(r);
    hide Initialize, Judge, BuildFundingPlan, Submitted, Fundable, Storable, AsSubmitted, ReadyChain, StillPlanned, Positive;
    var e := NewEscrow(r.wallet, r.financeApprover.value, key, Altered(Submitted(r)));
    JudgedAsPlanned(hash, r, h.contract, network, id, e, others, None, r.payments);
  }

  lemma OwnPayments(r: Request)
    requires DistinctIds(r.payments)
    ensures StillPlanned(r, r.payments)
  {
  }

  lemma AlteredIsAsSubmitted(r: Request, key: Bytes)
    requires Fundable(r) && Storable(r) && Positive(Submitted(r))
    ensures AsSubmitted(NewEscrow(r.wallet, r.financeApprover.value, key, Altered(Submitted(r))), r)
  {
  }
}
