/**
 * Confirming funding from chain evidence: the chain's facts against the plan frozen before a wallet opened.
 */
module Confirmation {
  import opened Prelude
  import opened Escrow
  import opened StateMachine
  import opened Projection
  import opened Refinement
  import opened Eligibility

  datatype FactRow = FactRow(worker: Address, token: Address, amount: int)

  /** What reading an escrow back from the chain yields. */
  datatype ChainFacts = ChainFacts(cancelled: bool, manager: Address, financeApprover: Address, payments: seq<FactRow>)

  datatype TransferFact = TransferFact(txHash: string, from: Address, to: Address, amount: int)

  datatype Resolution = Resolved(id: nat) | NotYetSeen | Ambiguous

  /** Everything the verifier reads; an absent part could not be read. */
  datatype Evidence = Evidence(
    succeeded: Option<bool>, resolution: Resolution, facts: Option<ChainFacts>, transfers: Option<seq<TransferFact>>)

  /** The attempt's own record; the plan is absent when missing or when its digest does not match. */
  datatype AttemptRecord = AttemptRecord(hash: string, network: string, contractId: Option<Address>, plan: Option<FundingPlan>)

  datatype Difference =
    | OtherNetwork | OtherContract | ChainCancelled | OtherManager | OtherFinance | SameSigners | OtherCount
    | OtherWorker(i: nat) | OtherAmount(i: nat) | OtherToken(i: nat)
    | PaymentGone(i: nat) | PaymentAltered(i: nat) | OtherPaymentCount
    | ManyEscrows | OtherEscrowClaimed

  function Note(condition: bool, d: Difference): seq<Difference> {
    if condition then [d] else []
  }

  function PlaceDifferences(a: AttemptRecord, plan: FundingPlan, f: ChainFacts): seq<Difference> {
    Note(a.network != plan.network, OtherNetwork)
    + Note(a.contractId.Some? && a.contractId.value != plan.contractId, OtherContract)
    + Note(f.cancelled, ChainCancelled)
  }

  function PartyDifferences(plan: FundingPlan, f: ChainFacts): seq<Difference> {
    Note(f.manager != plan.manager, OtherManager)
    + Note(f.financeApprover != plan.financeApprover, OtherFinance)
    + Note(f.manager == f.financeApprover, SameSigners)
  }

  function SignerDifferences(a: AttemptRecord, plan: FundingPlan, f: ChainFacts): seq<Difference> {
    PlaceDifferences(a, plan, f) + PartyDifferences(plan, f)
  }

  function RowDifference(actual: FactRow, expected: PlanRow, i: nat): seq<Difference> {
    Note(actual.worker != expected.worker, OtherWorker(i))
    + Note(actual.amount != expected.amount, OtherAmount(i))
    + Note(actual.token != expected.token, OtherToken(i))
  }

  function RowDifferences(actual: seq<FactRow>, expected: seq<PlanRow>, n: nat): seq<Difference>
    requires n <= |actual| && n <= |expected|
  {
    if n == 0 then [] else RowDifferences(actual, expected, n - 1) + RowDifference(actual[n - 1], expected[n - 1], n - 1)
  }

  function ChainRowDifferences(f: ChainFacts, plan: FundingPlan): seq<Difference> {
    if |f.payments| != |plan.rows| then [OtherCount] else RowDifferences(f.payments, plan.rows, |plan.rows|)
  }

  /** The payment with this id as it is now; the last one listed wins. */
  function Named(payments: seq<FundingPayment>, id: string): Option<FundingPayment> {
    if payments == [] then None
    else if payments[|payments| - 1].id == id then Some(payments[|payments| - 1])
    else Named(payments[..|payments| - 1], id)
  }

  predicate Unaltered(p: FundingPayment, row: PlanRow) {
    p.recipient == row.worker && p.amount == row.amount && p.rate == row.rate
  }

  function AlterationOf(payments: seq<FundingPayment>, row: PlanRow, i: nat): seq<Difference> {
    match Named(payments, row.paymentId)
    case None => [PaymentGone(i)]
    case Some(p) => Note(!Unaltered(p, row), PaymentAltered(i))
  }

  function Alterations(payments: seq<FundingPayment>, rows: seq<PlanRow>, n: nat): seq<Difference>
    requires n <= |rows|
  {
    if n == 0 then [] else Alterations(payments, rows, n - 1) + AlterationOf(payments, rows[n - 1], n - 1)
  }

  function Differences(a: AttemptRecord, plan: FundingPlan, f: ChainFacts, payments: seq<FundingPayment>): seq<Difference> {
    SignerDifferences(a, plan, f) + ChainRowDifferences(f, plan) + Alterations(payments, plan.rows, |plan.rows|)
    + Note(|payments| != |plan.rows|, OtherPaymentCount)
  }

  // ----- the loops that push differences -----

  method CompareRow(actual: FactRow, expected: PlanRow, i: nat) returns (row: seq<Difference>)
    ensures row == RowDifference(actual, expected, i)
  {
    row := [];
    if actual.worker != expected.worker { row := row + [OtherWorker(i)]; }
    if actual.amount != expected.amount { row := row + [OtherAmount(i)]; }
    if actual.token != expected.token { row := row + [OtherToken(i)]; }
  }

  method CompareRows(actual: seq<FactRow>, expected: seq<PlanRow>) returns (d: seq<Difference>)
    requires |actual| == |expected|
    ensures d == RowDifferences(actual, expected, |expected|)
  {
    hide RowDifference;
    d := [];
    var i := 0;
    while i < |expected|
      invariant 0 <= i <= |expected| && d == RowDifferences(actual, expected, i)
    {
      var row := CompareRow(actual[i], expected[i], i);
      d := d + row;
      i := i + 1;
    }
  }

  method CompareCurrent(payments: seq<FundingPayment>, rows: seq<PlanRow>) returns (d: seq<Difference>)
    ensures d == Alterations(payments, rows, |rows|)
  {
    d := [];
    var i := 0;
    while i < |rows|
      invariant 0 <= i <= |rows| && d == Alterations(payments, rows, i)
    {
      var current := Named(payments, rows[i].paymentId);
      if current == None {
        d := d + [PaymentGone(i)];
      } else if !Unaltered(current.value, rows[i]) {
        d := d + [PaymentAltered(i)];
      }
      i := i + 1;
    }
  }

  method ComparePlace(a: AttemptRecord, plan: FundingPlan, f: ChainFacts) returns (d: seq<Difference>)
    ensures d == PlaceDifferences(a, plan, f)
  {
    d := [];
    if a.network != plan.network { d := d + [OtherNetwork]; }
    if a.contractId.Some? && a.contractId.value != plan.contractId { d := d + [OtherContract]; }
    if f.cancelled { d := d + [ChainCancelled]; }
  }

  method CompareParties(plan: FundingPlan, f: ChainFacts) returns (d: seq<Difference>)
    ensures d == PartyDifferences(plan, f)
  {
    d := [];
    if f.manager != plan.manager { d := d + [OtherManager]; }
    if f.financeApprover != plan.financeApprover { d := d + [OtherFinance]; }
    if f.manager == f.financeApprover { d := d + [SameSigners]; }
  }

  method CompareWithPlan(a: AttemptRecord, plan: FundingPlan, f: ChainFacts, payments: seq<FundingPayment>) returns (d: seq<Difference>)
    ensures d == Differences(a, plan, f, payments)
  {
    hide PlaceDifferences, PartyDifferences, RowDifferences, Alterations;
    var place := ComparePlace(a, plan, f);
    var parties := CompareParties(plan, f);
    var rows := [OtherCount];
    if |f.payments| == |plan.rows| { rows := CompareRows(f.payments, plan.rows); }
    var current := CompareCurrent(payments, plan.rows);
    d := place + parties + rows + current;
    if |payments| != |plan.rows| { d := d + [OtherPaymentCount]; }
  }

  // ----- what no difference means -----

  /**
   * The chain holds the plan's parties and, row by row, its workers, tokens and amounts; the database still holds its
   * recipients, amounts and rates. Nothing else is compared.
   */
  ghost predicate Matches(a: AttemptRecord, plan: FundingPlan, f: ChainFacts, payments: seq<FundingPayment>) {
    && a.network == plan.network && (a.contractId.Some? ==> a.contractId.value == plan.contractId)
    && !f.cancelled && f.manager == plan.manager && f.financeApprover == plan.financeApprover && f.manager != f.financeApprover
    && |f.payments| == |plan.rows| == |payments|
    && (forall i :: 0 <= i < |plan.rows| ==>
          f.payments[i] == FactRow(plan.rows[i].worker, plan.rows[i].token, plan.rows[i].amount))
    && (forall i :: 0 <= i < |plan.rows| ==>
          var current := Named(payments, plan.rows[i].paymentId);
          current.Some? && Unaltered(current.value, plan.rows[i]))
  }

  lemma {:induction false} RowsEqual(actual: seq<FactRow>, expected: seq<PlanRow>, n: nat)
    requires n <= |actual| && n <= |expected|
    ensures RowDifferences(actual, expected, n) == []
            <==> forall i :: 0 <= i < n ==> actual[i] == FactRow(expected[i].worker, expected[i].token, expected[i].amount)
  {
    if n > 0 {
      RowsEqual(actual, expected, n - 1);
    }
  }

  lemma {:induction false} NoneAltered(payments: seq<FundingPayment>, rows: seq<PlanRow>, n: nat)
    requires n <= |rows|
    ensures Alterations(payments, rows, n) == []
            <==> forall i :: 0 <= i < n ==>
                   var current := Named(payments, rows[i].paymentId);
                   current.Some? && Unaltered(current.value, rows[i])
  {
    hide Named;
    if n > 0 {
      NoneAltered(payments, rows, n - 1);
    }
  }

  /** Network, contract, cancellation and parties. */
  lemma HeadAgrees(a: AttemptRecord, plan: FundingPlan, f: ChainFacts)
    ensures
      PlaceDifferences(a, plan, f) + PartyDifferences(plan, f) == []
      <==> a.network == plan.network && (a.contractId.Some? ==> a.contractId.value == plan.contractId)
           && !f.cancelled && f.manager == plan.manager && f.financeApprover == plan.financeApprover && f.manager != f.financeApprover
  {
    assert PlaceDifferences(a, plan, f) == []
           <==> a.network == plan.network && (a.contractId.Some? ==> a.contractId.value == plan.contractId) && !f.cancelled;
    assert PartyDifferences(plan, f) == []
           <==> f.manager == plan.manager && f.financeApprover == plan.financeApprover && f.manager != f.financeApprover;
    hide PlaceDifferences, PartyDifferences;
  }

  /** Confirmation finds no difference exactly when the chain and the database agree with the plan in what is compared. */
  lemma NoDifferencesExactly(a: AttemptRecord, plan: FundingPlan, f: ChainFacts, payments: seq<FundingPayment>)
    ensures Differences(a, plan, f, payments) == [] <==> Matches(a, plan, f, payments)
  {
    hide PlaceDifferences, PartyDifferences, RowDifferences, Alterations, Named, Unaltered;
    HeadAgrees(a, plan, f);
    NoneAltered(payments, plan.rows, |plan.rows|);
    if |f.payments| == |plan.rows| {
      RowsEqual(f.payments, plan.rows, |plan.rows|);
    }
  }

  // ----- the verdict -----

  datatype Verdict =
    | Confirmed(id: nat) | Unverifiable | FailedOnChain | Mismatch(differences: seq<Difference>) | Untrusted

  predicate IsFundingTransfer(t: TransferFact, a: AttemptRecord, plan: FundingPlan) {
    t == TransferFact(a.hash, plan.manager, plan.custody, plan.total)
  }

  function Judge(a: AttemptRecord, ev: Evidence, claimed: Option<nat>, payments: seq<FundingPayment>): Verdict {
    if ev.succeeded == None then Unverifiable
    else if !ev.succeeded.value then FailedOnChain
    else if ev.resolution == Ambiguous then Mismatch([ManyEscrows])
    else if ev.resolution == NotYetSeen then Unverifiable
    else if claimed.Some? && claimed.value != ev.resolution.id then Mismatch([OtherEscrowClaimed])
    else if a.plan == None then Untrusted
    else if ev.facts == None then Unverifiable
    else
      var plan := a.plan.value;
      var d := Differences(a, plan, ev.facts.value, payments);
      if d != [] then Mismatch(d)
      else if ev.transfers == None then Unverifiable
      else if !exists i :: 0 <= i < |ev.transfers.value| && IsFundingTransfer(ev.transfers.value[i], a, plan) then Unverifiable
      else Confirmed(ev.resolution.id)
  }

  method JudgeFunding(a: AttemptRecord, ev: Evidence, claimed: Option<nat>, payments: seq<FundingPayment>) returns (v: Verdict)
    ensures v == Judge(a, ev, claimed, payments)
  {
    if ev.succeeded == None { return Unverifiable; }
    if !ev.succeeded.value { return FailedOnChain; }
    if ev.resolution == Ambiguous { return Mismatch([ManyEscrows]); }
    if ev.resolution == NotYetSeen { return Unverifiable; }
    if claimed.Some? && claimed.value != ev.resolution.id { return Mismatch([OtherEscrowClaimed]); }
    if a.plan == None { return Untrusted; }
    if ev.facts == None { return Unverifiable; }
    hide Differences;
    var plan := a.plan.value;
    var d := CompareWithPlan(a, plan, ev.facts.value, payments);
    if |d| > 0 { return Mismatch(d); }
    if ev.transfers == None { return Unverifiable; }
    var transfers := ev.transfers.value;
    var i := 0;
    while i < |transfers|
      invariant 0 <= i <= |transfers| && forall k :: 0 <= k < i ==> !IsFundingTransfer(transfers[k], a, plan)
    {
      if IsFundingTransfer(transfers[i], a, plan) { return Confirmed(ev.resolution.id); }
      i := i + 1;
    }
    return Unverifiable;
  }

  /**
   * Funding is confirmed exactly when the transaction succeeded, it created this escrow, the escrow and the database
   * agree with the stored plan in what is compared, and the exact total moved from the plan's manager to custody in that
   * transaction.
   */
  lemma ConfirmedExactly(a: AttemptRecord, ev: Evidence, claimed: Option<nat>, payments: seq<FundingPayment>, id: nat)
    ensures
      Judge(a, ev, claimed, payments) == Confirmed(id)
      <==>
      && ev.succeeded == Some(true) && ev.resolution == Resolved(id) && (claimed.Some? ==> claimed.value == id)
      && a.plan.Some? && ev.facts.Some? && Matches(a, a.plan.value, ev.facts.value, payments)
      && ev.transfers.Some? && TransferFact(a.hash, a.plan.value.manager, a.plan.value.custody, a.plan.value.total) in ev.transfers.value
  {
    if a.plan.Some? && ev.facts.Some? {
      NoDifferencesExactly(a, a.plan.value, ev.facts.value, payments);
    }
    hide Differences, Matches;
    if a.plan.Some? && ev.transfers.Some? {
      var wanted := TransferFact(a.hash, a.plan.value.manager, a.plan.value.custody, a.plan.value.total);
      assert wanted in ev.transfers.value
             <==> exists i :: 0 <= i < |ev.transfers.value| && IsFundingTransfer(ev.transfers.value[i], a, a.plan.value);
    }
  }

  // ----- with the contract and with the projection -----

  /** Reading an escrow back. */
  function FactsOf(e: CoreFlowEscrow): ChainFacts {
    ChainFacts(e.cancelled, e.manager, e.financeApprover,
               seq(|e.payments|, i requires 0 <= i < |e.payments| =>
                 FactRow(e.payments[i].worker, e.payments[i].token, e.payments[i].amount)))
  }

  ghost predicate DistinctIds(payments: seq<FundingPayment>) {
    forall i, j :: 0 <= i < j < |payments| ==> payments[i].id != payments[j].id
  }

  lemma {:induction false} NamedAt(payments: seq<FundingPayment>, i: nat)
    requires DistinctIds(payments) && i < |payments|
    ensures Named(payments, payments[i].id) == Some(payments[i])
  {
    if i < |payments| - 1 {
      NamedAt(payments[..|payments| - 1], i);
    }
  }

  /** These are still the payments the request was made of, whatever their states. */
  ghost predicate StillPlanned(r: Request, payments: seq<FundingPayment>) {
    && |payments| == |r.payments| && DistinctIds(payments)
    && forall i :: 0 <= i < |payments| ==>
         && payments[i].id == r.payments[i].id && payments[i].recipient == r.payments[i].recipient
         && payments[i].amount == r.payments[i].amount && payments[i].rate == r.payments[i].rate
  }

  /** The escrow still has the planned parties, workers, tokens and amounts. */
  ghost predicate AsSubmitted(e: CoreFlowEscrow, r: Request)
    requires Fundable(r) && Storable(r)
  {
    && e.manager == r.wallet && e.financeApprover == r.financeApprover.value && |e.payments| == |r.payments|
    && forall i :: 0 <= i < |e.payments| ==>
         e.payments[i].worker == r.payments[i].recipient && e.payments[i].token == r.asset.contractId.value
         && e.payments[i].amount == r.payments[i].amount
  }

  /** An escrow as submitted shows no difference from the plan, unless it was cancelled. */
  lemma FundedAsPlanned(r: Request, contract: Address, network: string, a: AttemptRecord, e: CoreFlowEscrow, payments: seq<FundingPayment>)
    requires Fundable(r) && Storable(r) && StillPlanned(r, payments) && AsSubmitted(e, r)
    requires a.network == network && (a.contractId.Some? ==> a.contractId.value == contract)
    ensures Differences(a, BuildFundingPlan(r, contract, network), FactsOf(e), payments) == [] <==> !e.cancelled
  {
    var plan, f := BuildFundingPlan(r, contract, network), FactsOf(e);
    forall i | 0 <= i < |plan.rows|
      ensures f.payments[i] == FactRow(plan.rows[i].worker, plan.rows[i].token, plan.rows[i].amount)
      ensures Named(payments, plan.rows[i].paymentId) == Some(payments[i]) && Unaltered(payments[i], plan.rows[i])
    {
      StorableFits(r, i);
      NamedAt(payments, i);
    }
    NoDifferencesExactly(a, plan, f, payments);
    hide Differences;
  }

  /** The evidence of a funding transaction that succeeded, with its transfer. */
  function FundingEvidence(hash: string, r: Request, contract: Address, id: nat, e: CoreFlowEscrow, others: seq<TransferFact>): Evidence {
    Evidence(Some(true), Resolved(id), Some(FactsOf(e)), Some([TransferFact(hash, r.wallet, contract, Sum(r.payments))] + others))
  }

  function FundingRecord(hash: string, r: Request, contract: Address, network: string): AttemptRecord
    requires Fundable(r)
  {
    AttemptRecord(hash, network, Some(contract), Some(BuildFundingPlan(r, contract, network)))
  }

  lemma JudgedAsPlanned(hash: string, r: Request, contract: Address, network: string, id: nat, e: CoreFlowEscrow,
                        others: seq<TransferFact>, claimed: Option<nat>, payments: seq<FundingPayment>)
    requires Fundable(r) && Storable(r) && StillPlanned(r, payments) && AsSubmitted(e, r) && (claimed.Some? ==> claimed.value == id)
    ensures
      Judge(FundingRecord(hash, r, contract, network), FundingEvidence(hash, r, contract, id, e, others), claimed, payments) == Confirmed(id)
      <==> !e.cancelled
  {
    var a, ev := FundingRecord(hash, r, contract, network), FundingEvidence(hash, r, contract, id, e, others);
    FundedAsPlanned(r, contract, network, a, e, payments);
    NoDifferencesExactly(a, a.plan.value, ev.facts.value, payments);
    ConfirmedExactly(a, ev, claimed, payments, id);
    hide Differences, Matches, Judge;
    assert ev.transfers.value[0] == TransferFact(hash, r.wallet, contract, Sum(r.payments));
  }

  /** The rows confirmation links, each to the slot at its position in the batch. */
  function Linked(payments: seq<FundingPayment>): PaymentRows {
    map i: nat | i < |payments| ::
      PaymentRow(payments[i].recipient, None, payments[i].amount, payments[i].rate, payments[i].hours, payments[i].periodStart, payments[i].periodEnd, payments[i].state)
  }

  /** What confirmation links is what the projection expects to find: rows that agree with the escrow slot by slot. */
  lemma ConfirmedIsPrelinked(a: AttemptRecord, plan: FundingPlan, e: CoreFlowEscrow, payments: seq<FundingPayment>, v: View)
    requires Matches(a, plan, FactsOf(e), payments) && DistinctIds(payments)
    requires forall i :: 0 <= i < |payments| ==> payments[i].id == plan.rows[i].paymentId && payments[i].state == VALIDATING
    requires v.payments == Linked(payments)
    ensures Prelinked(v, e.payments) && Agreeing(v, e.payments) && forall id: nat :: Notes(v, id, e.payments) == multiset{}
  {
    forall i | i in v.payments
      ensures 0 <= i < |e.payments| && v.payments[i].recipient == e.payments[i].worker && v.payments[i].amount == e.payments[i].amount
    {
      NamedAt(payments, i);
      assert FactsOf(e).payments[i] == FactRow(plan.rows[i].worker, plan.rows[i].token, plan.rows[i].amount);
    }
    forall id: nat ensures Notes(v, id, e.payments) == multiset{} {
      NotesExactly(v, id, e.payments);
    }
  }
}
