/**
 * What one event does to any picture whatever, said from outside: where each payment goes, which finding is opened and why,
 * which audit rows are written; and over any log, that PAID and CANCELLED are never reached without an audit row.
 */
module ProjectionReports {
  import opened Prelude
  import opened Escrow
  import opened StateMachine
  import opened Events
  import opened Projection
  import opened Refinement

  /** The states a settlement or a cancellation seen in the log is followed from. */
  const PAYABLE_FROM: set<PaymentState> := {READY_TO_SETTLE, SUBMITTING, CONFIRMING, SETTLEMENT_FAILED, RECONCILIATION_REQUIRED}

  lemma PaidFrom(row: PaymentRow)
    ensures MayMove(row, PAID) <==> row.state in PAYABLE_FROM
  {
  }

  lemma CancelledFrom(row: PaymentRow)
    ensures MayMove(row, CANCELLED) <==> row.state in CANCELLABLE
  {
  }

  lemma AwaitsFrom(row: PaymentRow)
    requires row.state == VALIDATING
    ensures MayMove(row, AWAITING_ORACLE)
  {
  }

  // ----- states -----

  /** Where this event takes the payment at slot `i`. */
  function Goes(state: PaymentState, i: nat, ev: CoreFlowEvent): PaymentState {
    match ev
    case PaymentAddedEvent(_, k, _, _, _, _, _, _) => if k == i && state == VALIDATING then AWAITING_ORACLE else state
    case HoursEvent(_, k, _) => if k == i && state == AWAITING_ORACLE then ORACLE_VERIFIED else state
    case ManagerApprovedEvent(_) => if state in {ORACLE_VERIFIED, AWAITING_MANAGER} then AWAITING_FINANCE else state
    case FinanceApprovedEvent(_) =>
      if state == ORACLE_VERIFIED then AWAITING_MANAGER else if state == AWAITING_FINANCE then READY_TO_SETTLE else state
    case PaymentPaidEvent(_, k, _, _, _, _) => if k == i && state in PAYABLE_FROM then PAID else state
    case PaymentCancelledEvent(_, k) => if k == i && state in CANCELLABLE then CANCELLED else state
    case OracleRotatedEvent(_, _) => if state in {ORACLE_VERIFIED, AWAITING_MANAGER, AWAITING_FINANCE, READY_TO_SETTLE} then AWAITING_ORACLE else state
    case _ => state
  }

  lemma ApprovalGoes(v: View, id: nat, byManager: bool, i: nat)
    requires i in v.payments
    ensures
      var w, ev := Approved(v, id, byManager).view, if byManager then ManagerApprovedEvent(id) else FinanceApprovedEvent(id);
      i in w.payments && w.payments[i] == v.payments[i].(state := Goes(v.payments[i].state, i, ev))
  {
    ApprovedFacts(v, id, byManager);
    hide Approved;
  }

  lemma PaidGoes(v: View, ev: CoreFlowEvent, i: nat)
    requires i in v.payments && ev.PaymentPaidEvent?
    ensures
      var w := ObservePaid(v, ev).view;
      i in w.payments && w.payments[i] == v.payments[i].(state := Goes(v.payments[i].state, i, ev))
  {
    hide MayMove, Compared;
    PaidFrom(v.payments[i]);
  }

  lemma CancelGoes(v: View, ev: CoreFlowEvent, i: nat)
    requires i in v.payments && ev.PaymentCancelledEvent?
    ensures
      var w := CancelPayment(v, ev).view;
      i in w.payments && w.payments[i] == v.payments[i].(state := Goes(v.payments[i].state, i, ev))
  {
    hide MayMove;
    CancelledFrom(v.payments[i]);
  }

  lemma AddGoes(v: View, ev: CoreFlowEvent, i: nat)
    requires i in v.payments && ev.PaymentAddedEvent?
    ensures
      var w := AddPayment(v, ev).view;
      i in w.payments && w.payments[i] == v.payments[i].(state := Goes(v.payments[i].state, i, ev))
  {
    hide MayMove, Quotient, Milliseconds;
    if v.payments[i].state == VALIDATING {
      AwaitsFrom(v.payments[i]);
    }
  }

  lemma HoursGo(v: View, ev: CoreFlowEvent, i: nat)
    requires i in v.payments && ev.HoursEvent?
    ensures
      var w, row := AcceptHours(v, ev).view, v.payments[i];
      i in w.payments
      && w.payments[i]
         == row.(state := Goes(row.state, i, ev), hours := if ev.paymentIndex == i && row.state == AWAITING_ORACLE then ev.hours else row.hours)
  {
  }

  /** The hours a payment shows change only with an attestation it was waiting for. */
  function Shows(row: PaymentRow, i: nat, ev: CoreFlowEvent): int {
    if ev.HoursEvent? && ev.paymentIndex == i && row.state == AWAITING_ORACLE then ev.hours else row.hours
  }

  /** In any picture, an event leaves each payment as it was but for the state it goes to and the hours it shows. */
  lemma EventMoves(v: View, ev: CoreFlowEvent, i: nat)
    requires i in v.payments
    ensures
      var w, row := Project(v, ev).view, v.payments[i];
      i in w.payments && w.payments[i] == row.(state := Goes(row.state, i, ev), hours := Shows(row, i, ev))
  {
    ProjectCases(v, ev);
    hide AddPayment, AcceptHours, Approved, ObservePaid, CancelPayment, Summarised;
    match ev {
      case PaymentAddedEvent(_, _, _, _, _, _, _, _) => AddGoes(v, ev, i);
      case HoursEvent(_, _, _) => HoursGo(v, ev, i);
      case ManagerApprovedEvent(id) => ApprovalGoes(v, id, true, i);
      case FinanceApprovedEvent(id) => ApprovalGoes(v, id, false, i);
      case PaymentPaidEvent(_, _, _, _, _, _) => PaidGoes(v, ev, i);
      case PaymentCancelledEvent(_, _) => CancelGoes(v, ev, i);
      case OracleRotatedEvent(id, n) => RotatedFacts(v, id, n); hide Project;
      case FinalizedEvent(_, _, _) => SummaryMovesNothing(v, ev);
      case _ =>
    }
  }

  lemma SummaryMovesNothing(v: View, ev: CoreFlowEvent)
    requires ev.FinalizedEvent?
    ensures Summarised(v, ev).view.payments == v.payments && Summarised(v, ev).view.audits == v.audits
  {
  }

  /** A batch is there once the escrow, or a slot of it, has been seen. */
  lemma BatchExactly(v: View, ev: CoreFlowEvent)
    ensures Project(v, ev).view.batch <==> v.batch || ev.CreatedEvent? || ev.PaymentAddedEvent?
  {
    hide MayMove, Quotient, Milliseconds, Compared, AuditEach, In;
  }

  // ----- findings -----

  /** What this event, seen against this picture, gives reason to say. */
  predicate Says(v: View, ev: CoreFlowEvent, g: Finding) {
    match ev
    case PaymentAddedEvent(id, i, worker, _, amount, _, _, _) =>
      && i in v.payments
      && var row := v.payments[i];
      && (row.recipient != worker || row.amount != amount)
      && g == Finding(id, Some(i), AMOUNT_MISMATCH, PayeeAmount(row.recipient, row.amount), PayeeAmount(worker, amount))
    case PaymentPaidEvent(id, i, worker, _, amount, _) =>
      if i !in v.payments then g == Finding(id, None, ORPHAN_ON_CHAIN, Nothing, Stands(PAID))
      else
        var row := v.payments[i];
        || (row.amount != amount && g == Finding(id, Some(i), AMOUNT_MISMATCH, Amount(row.amount), Amount(amount)))
        || (row.recipient != worker && g == Finding(id, Some(i), RECIPIENT_MISMATCH, Payee(row.recipient), Payee(worker)))
        || (row.state != PAID && row.state !in PAYABLE_FROM && g == Finding(id, Some(i), CHAIN_PAID_DB_NOT, Stands(row.state), Stands(PAID)))
    case PaymentCancelledEvent(id, i) =>
      i in v.payments && v.payments[i].state == PAID && g == Finding(id, Some(i), DB_PAID_CHAIN_NOT, Stands(PAID), Stands(CANCELLED))
    case FinalizedEvent(id, _, count) =>
      (exists i :: i in v.payments && v.payments[i].state != PAID) && g == Finding(id, None, CHAIN_PAID_DB_NOT, Nothing, SettledCount(count))
    case _ => false
  }

  function Once(condition: bool): nat {
    if condition then 1 else 0
  }

  lemma ComparisonSays(v: View, ev: CoreFlowEvent, g: Finding)
    requires ev.PaymentPaidEvent? && ev.paymentIndex in v.payments
    ensures
      var row := v.payments[ev.paymentIndex];
      Compared(v, ev).findings[g]
      == v.findings[g]
         + Once(row.amount != ev.amountBaseUnits
                && g == Finding(ev.escrowId, Some(ev.paymentIndex), AMOUNT_MISMATCH, Amount(row.amount), Amount(ev.amountBaseUnits)))
         + Once(row.recipient != ev.worker
                && g == Finding(ev.escrowId, Some(ev.paymentIndex), RECIPIENT_MISMATCH, Payee(row.recipient), Payee(ev.worker)))
  {
  }

  lemma SettlementSays(v: View, ev: CoreFlowEvent, g: Finding)
    requires ev.PaymentPaidEvent?
    ensures ObservePaid(v, ev).view.findings[g] == v.findings[g] + Once(Says(v, ev, g))
  {
    hide MayMove, Compared;
    if ev.paymentIndex in v.payments {
      ComparisonSays(v, ev, g);
      PaidFrom(v.payments[ev.paymentIndex]);
    }
  }

  lemma OthersSay(v: View, ev: CoreFlowEvent, g: Finding)
    requires !ev.PaymentPaidEvent? && !ev.PaymentAddedEvent?
    ensures Project(v, ev).view.findings[g] == v.findings[g] + Once(Says(v, ev, g))
  {
    hide MayMove, AuditEach, In;
  }

  lemma AdditionSays(v: View, ev: CoreFlowEvent, g: Finding)
    requires ev.PaymentAddedEvent?
    ensures AddPayment(v, ev).view.findings[g] == v.findings[g] + Once(Says(v, ev, g))
  {
    hide MayMove, Quotient, Milliseconds;
  }

  /** In any picture, an event opens a finding if and only if it gives reason to, each once. */
  lemma FindingsTellWhy(v: View, ev: CoreFlowEvent, g: Finding)
    ensures Project(v, ev).view.findings[g] == v.findings[g] + Once(Says(v, ev, g))
  {
    ProjectCases(v, ev);
    hide Project, AddPayment, ObservePaid, Says;
    match ev {
      case PaymentAddedEvent(_, _, _, _, _, _, _, _) => AdditionSays(v, ev, g);
      case PaymentPaidEvent(_, _, _, _, _, _) => SettlementSays(v, ev, g);
      case _ => OthersSay(v, ev, g);
    }
  }

  // ----- audit rows -----

  /** The audit rows this event gives reason to write. */
  predicate Writes(v: View, ev: CoreFlowEvent, a: Audit) {
    && a.escrow == ev.escrowId
    && match ev
       case PaymentAddedEvent(_, i, _, _, _, _, _, _) =>
         if i !in v.payments then a == Audit(ev.escrowId, i, PaymentIndexed, None, AWAITING_ORACLE)
         else v.payments[i].state == VALIDATING && a == Audit(ev.escrowId, i, StateChanged, Some(VALIDATING), AWAITING_ORACLE)
       case HoursEvent(_, i, _) =>
         i in v.payments && a == Audit(ev.escrowId, i, OracleVerifiedSeen, Some(v.payments[i].state), ORACLE_VERIFIED)
       case ManagerApprovedEvent(_) =>
         && a.slot in v.payments && v.payments[a.slot].state in {ORACLE_VERIFIED, AWAITING_MANAGER}
         && a == Audit(ev.escrowId, a.slot, ManagerApprovalSeen, Some(AWAITING_MANAGER), AWAITING_FINANCE)
       case FinanceApprovedEvent(_) =>
         && a.slot in v.payments && v.payments[a.slot].state == AWAITING_FINANCE
         && a == Audit(ev.escrowId, a.slot, FinanceApprovalSeen, Some(AWAITING_FINANCE), READY_TO_SETTLE)
       case PaymentPaidEvent(_, i, _, _, _, _) =>
         i in v.payments && v.payments[i].state in PAYABLE_FROM && a == Audit(ev.escrowId, i, StateChanged, Some(v.payments[i].state), PAID)
       case PaymentCancelledEvent(_, i) =>
         i in v.payments && v.payments[i].state in CANCELLABLE && a == Audit(ev.escrowId, i, StateChanged, Some(v.payments[i].state), CANCELLED)
       case _ => false
  }

  lemma EachOnce(slots: set<nat>, id: nat, kind: AuditKind, previous: PaymentState, next: PaymentState, a: Audit)
    ensures AuditEach(slots, id, kind, previous, next)[a] == Once(a.slot in slots && a == Audit(id, a.slot, kind, Some(previous), next))
  {
    assert a in AuditSet(slots, id, kind, previous, next) <==> a.slot in slots && a == Audit(id, a.slot, kind, Some(previous), next);
  }

  lemma ApprovalWrites(v: View, id: nat, byManager: bool, a: Audit)
    ensures
      var ev := if byManager then ManagerApprovedEvent(id) else FinanceApprovedEvent(id);
      Approved(v, id, byManager).view.audits[a] == v.audits[a] + Once(Writes(v, ev, a))
  {
    var entered := Restated(v.payments, {ORACLE_VERIFIED}, AWAITING_MANAGER);
    var waiting, next := if byManager then AWAITING_MANAGER else AWAITING_FINANCE, if byManager then AWAITING_FINANCE else READY_TO_SETTLE;
    EachOnce(In(entered, waiting), id, if byManager then ManagerApprovalSeen else FinanceApprovalSeen, waiting, next, a);
    hide AuditEach;
  }

  lemma SettlementWrites(v: View, ev: CoreFlowEvent, a: Audit)
    requires ev.PaymentPaidEvent?
    ensures ObservePaid(v, ev).view.audits[a] == v.audits[a] + Once(Writes(v, ev, a))
  {
    hide MayMove, Compared;
    if ev.paymentIndex in v.payments {
      PaidFrom(v.payments[ev.paymentIndex]);
    }
  }

  lemma CancellationWrites(v: View, ev: CoreFlowEvent, a: Audit)
    requires ev.PaymentCancelledEvent?
    ensures CancelPayment(v, ev).view.audits[a] == v.audits[a] + Once(Writes(v, ev, a))
  {
    hide MayMove;
    if ev.paymentIndex in v.payments {
      CancelledFrom(v.payments[ev.paymentIndex]);
    }
  }

  lemma AdditionWrites(v: View, ev: CoreFlowEvent, a: Audit)
    requires ev.PaymentAddedEvent?
    ensures AddPayment(v, ev).view.audits[a] == v.audits[a] + Once(Writes(v, ev, a))
  {
    hide MayMove, Quotient, Milliseconds;
    if ev.paymentIndex in v.payments && v.payments[ev.paymentIndex].state == VALIDATING {
      AwaitsFrom(v.payments[ev.paymentIndex]);
    }
  }

  lemma HoursWrite(v: View, ev: CoreFlowEvent, a: Audit)
    requires ev.HoursEvent?
    ensures AcceptHours(v, ev).view.audits[a] == v.audits[a] + Once(Writes(v, ev, a))
  {
  }

  /** In any picture, an event writes an audit row if and only if it gives reason to, each once. */
  lemma AuditsTellWhat(v: View, ev: CoreFlowEvent, a: Audit)
    ensures Project(v, ev).view.audits[a] == v.audits[a] + Once(Writes(v, ev, a))
  {
    ProjectCases(v, ev);
    hide AddPayment, AcceptHours, Approved, ObservePaid, CancelPayment, Summarised;
    match ev {
      case PaymentAddedEvent(_, _, _, _, _, _, _, _) => AdditionWrites(v, ev, a); hide Writes, Project;
      case HoursEvent(_, _, _) => HoursWrite(v, ev, a); hide Writes, Project;
      case ManagerApprovedEvent(id) => ApprovalWrites(v, id, true, a); hide Writes, Project;
      case FinanceApprovedEvent(id) => ApprovalWrites(v, id, false, a); hide Writes, Project;
      case PaymentPaidEvent(_, _, _, _, _, _) => SettlementWrites(v, ev, a); hide Writes, Project;
      case PaymentCancelledEvent(_, _) => CancellationWrites(v, ev, a); hide Writes, Project;
      case FinalizedEvent(_, _, _) => SummaryMovesNothing(v, ev);
      case _ =>
    }
  }

  /** The audit row of a payment's move into a final state. */
  function Final(id: nat, i: nat, from: PaymentState, final: PaymentState): Audit {
    Audit(id, i, StateChanged, Some(from), final)
  }

  lemma FinalWrites(v: View, ev: CoreFlowEvent, i: nat, from: PaymentState, final: PaymentState)
    requires final == PAID || final == CANCELLED
    ensures
      Writes(v, ev, Final(ev.escrowId, i, from, final))
      <==> i in v.payments && v.payments[i].state == from && from != final && Goes(from, i, ev) == final
  {
  }

  lemma FinalStays(ev: CoreFlowEvent, i: nat, final: PaymentState)
    requires final == PAID || final == CANCELLED
    ensures Goes(final, i, ev) == final
  {
  }

  /** At most one payment appears, and it waits for the oracle. */
  lemma AppearsAwaiting(v: View, ev: CoreFlowEvent, i: nat)
    requires i !in v.payments && i in Project(v, ev).view.payments
    ensures Project(v, ev).view.payments[i].state == AWAITING_ORACLE
  {
    hide MayMove, Quotient, Milliseconds, Compared, AuditEach, In;
  }

  /** The payment stands in a final state exactly when some audit row of its move there was added, from another state. */
  ghost predicate MoveAudited(v0: View, v: View, id: nat, i: nat, final: PaymentState) {
    && (forall from :: v.audits[Final(id, i, from, final)] >= v0.audits[Final(id, i, from, final)])
    && (i in v.payments && v.payments[i].state == final
        <==> exists from :: v.audits[Final(id, i, from, final)] > v0.audits[Final(id, i, from, final)])
  }

  /** One step: at most one such row is added, exactly when the payment moves there. */
  ghost predicate AddsRow(v: View, w: View, id: nat, i: nat, final: PaymentState, moves: bool) {
    forall from :: w.audits[Final(id, i, from, final)]
                   == v.audits[Final(id, i, from, final)] + Once(moves && i in v.payments && v.payments[i].state == from)
  }

  lemma StepAddsRow(v: View, ev: CoreFlowEvent, i: nat, final: PaymentState)
    requires final == PAID || final == CANCELLED
    ensures
      AddsRow(v, Project(v, ev).view, ev.escrowId, i, final,
              i in v.payments && v.payments[i].state != final && Goes(v.payments[i].state, i, ev) == final)
  {
    hide Project, Goes, Writes, Final;
    var w, id := Project(v, ev).view, ev.escrowId;
    forall from: PaymentState
      ensures
        w.audits[Final(id, i, from, final)]
        == v.audits[Final(id, i, from, final)]
           + Once(i in v.payments && v.payments[i].state == from && from != final && Goes(from, i, ev) == final)
    {
      AuditsTellWhat(v, ev, Final(id, i, from, final));
      FinalWrites(v, ev, i, from, final);
    }
  }

  lemma RowsCarry(v0: View, v: View, w: View, id: nat, i: nat, final: PaymentState, moves: bool)
    requires MoveAudited(v0, v, id, i, final) && AddsRow(v, w, id, i, final, moves)
    requires moves ==> i in v.payments
    requires i in w.payments && w.payments[i].state == final <==> moves || (i in v.payments && v.payments[i].state == final)
    ensures MoveAudited(v0, w, id, i, final)
  {
    hide Final;
    if moves {
      assert w.audits[Final(id, i, v.payments[i].state, final)] > v0.audits[Final(id, i, v.payments[i].state, final)];
    } else {
      assert forall from :: w.audits[Final(id, i, from, final)] == v.audits[Final(id, i, from, final)];
    }
  }

  lemma AuditedStep(v0: View, v: View, ev: CoreFlowEvent, i: nat, final: PaymentState)
    requires final == PAID || final == CANCELLED
    requires MoveAudited(v0, v, ev.escrowId, i, final)
    ensures MoveAudited(v0, Project(v, ev).view, ev.escrowId, i, final)
  {
    hide Project, Goes, MoveAudited, AddsRow;
    var w := Project(v, ev).view;
    var moves := i in v.payments && v.payments[i].state != final && Goes(v.payments[i].state, i, ev) == final;
    FinalStays(ev, i, final);
    StepAddsRow(v, ev, i, final);
    if i in v.payments {
      EventMoves(v, ev, i);
    } else if i in w.payments {
      AppearsAwaiting(v, ev, i);
    }
    RowsCarry(v0, v, w, ev.escrowId, i, final, moves);
  }

  /**
   * Over any log and from any picture: a payment that was not final stands PAID, or CANCELLED, if and only if an audit row
   * says from which state it went there.
   */
  lemma {:induction false} FinalIsAudited(v0: View, log: seq<ContractEvent>, id: nat, i: nat, final: PaymentState)
    requires final == PAID || final == CANCELLED
    requires i in v0.payments ==> v0.payments[i].state != final
    ensures MoveAudited(v0, Replayed(v0, log, id), id, i, final)
  {
    hide Project, ParseEvent;
    if log != [] {
      var n := |log| - 1;
      FinalIsAudited(v0, log[..n], id, i, final);
      var ev := ParseEvent(log[n]);
      if ev.Some? && ev.value.escrowId == id {
        AuditedStep(v0, Replayed(v0, log[..n], id), ev.value, i, final);
      }
    }
  }
}
