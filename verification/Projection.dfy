/**
 * What one chain event does to the database's picture of its escrow. `Indexer` is the object that performs these
 * steps on the tables.
 */
module Projection {
  import opened Prelude
  import opened Escrow
  import opened StateMachine
  import opened Events

  /** Escrow ids are assigned per contract and network. */
  datatype Deployment = Deployment(contractId: Address, network: string)

  datatype EscrowRow = EscrowRow(
    org: string, deployment: Deployment, manager: Address, total: int,
    managerApproved: bool, financeApproved: bool, cancelled: bool, rotations: nat)

  datatype PaymentRow = PaymentRow(
    recipient: Address, asset: Option<Address>, amount: int, rate: int, hours: int,
    periodStart: Option<int>, periodEnd: Option<int>, state: PaymentState)

  datatype FindingKind =
    | CHAIN_PAID_DB_NOT | DB_PAID_CHAIN_NOT | AMOUNT_MISMATCH | RECIPIENT_MISMATCH | ORPHAN_ON_CHAIN | MISSING_ON_CHAIN

  /** What one side of a disagreement says. */
  datatype Said =
    | Nothing | Stands(state: PaymentState) | Status(status: PaymentStatus) | Amount(units: int) | Payee(payee: Address)
    | PayeeAmount(who: Address, units: int) | SettledCount(count: nat)

  datatype Finding = Finding(escrow: nat, slot: Option<nat>, kind: FindingKind, dbSays: Said, chainSays: Said)

  datatype AuditKind = PaymentIndexed | OracleVerifiedSeen | ManagerApprovalSeen | FinanceApprovalSeen | StateChanged

  datatype Audit = Audit(escrow: nat, slot: nat, kind: AuditKind, previous: Option<PaymentState>, next: PaymentState)

  type PaymentRows = map<nat, PaymentRow>

  /** Everything the database holds about one on-chain escrow; a payment's organization is its escrow's. */
  datatype View = View(
    escrow: EscrowRow, batch: bool, payments: PaymentRows, findings: multiset<Finding>, audits: multiset<Audit>)

  /** The new view, with the counts the run reports. */
  datatype Projected = Projected(view: View, created: nat, advanced: nat, paid: nat, findings: nat)

  const INDEXER := Actor(Indexer, None)

  function Kept(v: View): Projected {
    Projected(v, 0, 0, 0, 0)
  }

  function Found(v: View, f: Finding): View {
    v.(findings := v.findings + multiset{f})
  }

  /** Moving one payment along the table as the indexer, with its audit row. */
  function Moved(v: View, id: nat, slot: nat, to: PaymentState): View
    requires slot in v.payments
  {
    var row := v.payments[slot];
    v.(payments := v.payments[slot := row.(state := to)],
       audits := v.audits + multiset{Audit(id, slot, StateChanged, Some(row.state), to)})
  }

  predicate MayMove(row: PaymentRow, to: PaymentState) {
    CheckTransition(row.state, to, INDEXER) == Allowed
  }

  /** One statement that rewrites the state of every payment of the escrow that is in one of `from`. */
  function Restated(rows: PaymentRows, from: set<PaymentState>, to: PaymentState): (r: PaymentRows)
    ensures r.Keys == rows.Keys
  {
    map i | i in rows :: if rows[i].state in from then rows[i].(state := to) else rows[i]
  }

  function Milliseconds(seconds: int): Option<int> {
    if seconds > 0 then Some(seconds * 1000) else None
  }

  function AddPayment(v: View, ev: CoreFlowEvent): Projected
    requires ev.PaymentAddedEvent?
  {
    var v, id, slot := v.(batch := true), ev.escrowId, ev.paymentIndex;
    if slot in v.payments then
      var row := v.payments[slot];
      var differs := row.amount != ev.amountBaseUnits || row.recipient != ev.worker;
      var noted :=
        if differs
        then Found(v, Finding(id, Some(slot), AMOUNT_MISMATCH, PayeeAmount(row.recipient, row.amount), PayeeAmount(ev.worker, ev.amountBaseUnits)))
        else v;
      var moves := row.state == VALIDATING && MayMove(row, AWAITING_ORACLE);
      Projected(if moves then Moved(noted, id, slot, AWAITING_ORACLE) else noted,
                0, if moves then 1 else 0, 0, if differs then 1 else 0)
    else
      var hours := if ev.rateBaseUnits > 0 then Quotient(ev.amountBaseUnits, ev.rateBaseUnits) else 0;
      var row := PaymentRow(ev.worker, Some(ev.token), ev.amountBaseUnits, ev.rateBaseUnits, hours,
                            Milliseconds(ev.periodStart), Milliseconds(ev.periodEnd), AWAITING_ORACLE);
      Projected(v.(payments := v.payments[slot := row],
                   audits := v.audits + multiset{Audit(id, slot, PaymentIndexed, None, AWAITING_ORACLE)}),
                1, 0, 0, 0)
  }

  /** Division that truncates toward zero. */
  function Quotient(a: int, b: int): int
    requires b > 0
  {
    if a >= 0 then a / b else -((-a) / b)
  }

  function AcceptHours(v: View, ev: CoreFlowEvent): Projected
    requires ev.HoursEvent?
  {
    if ev.paymentIndex !in v.payments then Kept(v)
    else
      var row := v.payments[ev.paymentIndex];
      var row' := if row.state == AWAITING_ORACLE then row.(state := ORACLE_VERIFIED, hours := ev.hours) else row;
      Kept(v.(payments := v.payments[ev.paymentIndex := row'],
              audits := v.audits + multiset{Audit(ev.escrowId, ev.paymentIndex, OracleVerifiedSeen, Some(row.state), ORACLE_VERIFIED)}))
  }

  function In(rows: PaymentRows, state: PaymentState): set<nat> {
    set i | i in rows && rows[i].state == state
  }

  function AuditSet(slots: set<nat>, id: nat, kind: AuditKind, previous: PaymentState, next: PaymentState): set<Audit> {
    set i | i in slots :: Audit(id, i, kind, Some(previous), next)
  }

  /** One audit row per slot. */
  function AuditEach(slots: set<nat>, id: nat, kind: AuditKind, previous: PaymentState, next: PaymentState): multiset<Audit> {
    multiset(AuditSet(slots, id, kind, previous, next))
  }

  /** Verified payments enter the approval chain; then those waiting on this approver go on. */
  function Approved(v: View, id: nat, byManager: bool): Projected {
    var waiting, next := if byManager then AWAITING_MANAGER else AWAITING_FINANCE, if byManager then AWAITING_FINANCE else READY_TO_SETTLE;
    var entered := Restated(v.payments, {ORACLE_VERIFIED}, AWAITING_MANAGER);
    Kept(v.(escrow := if byManager then v.escrow.(managerApproved := true) else v.escrow.(financeApproved := true),
            payments := Restated(entered, {waiting}, next),
            audits := v.audits + AuditEach(In(entered, waiting), id, if byManager then ManagerApprovalSeen else FinanceApprovalSeen, waiting, next)))
  }

  function Differences(row: PaymentRow, ev: CoreFlowEvent): nat
    requires ev.PaymentPaidEvent?
  {
    (if row.amount != ev.amountBaseUnits then 1 else 0) + (if row.recipient != ev.worker then 1 else 0)
  }

  /** Every way the settled figures differ from the recorded payment becomes a finding. */
  function Compared(v: View, ev: CoreFlowEvent): (c: View)
    requires ev.PaymentPaidEvent? && ev.paymentIndex in v.payments
    ensures c == v.(findings := c.findings)
    ensures |c.findings| == |v.findings| + Differences(v.payments[ev.paymentIndex], ev)
  {
    var id, slot, row := ev.escrowId, ev.paymentIndex, v.payments[ev.paymentIndex];
    var v1 :=
      if row.amount != ev.amountBaseUnits
      then Found(v, Finding(id, Some(slot), AMOUNT_MISMATCH, Amount(row.amount), Amount(ev.amountBaseUnits)))
      else v;
    if row.recipient != ev.worker
    then Found(v1, Finding(id, Some(slot), RECIPIENT_MISMATCH, Payee(row.recipient), Payee(ev.worker)))
    else v1
  }

  /** Chain-confirmed settlement of one payment: the only way to PAID here. */
  function ObservePaid(v: View, ev: CoreFlowEvent): Projected
    requires ev.PaymentPaidEvent?
  {
    var id, slot := ev.escrowId, ev.paymentIndex;
    if slot !in v.payments then
      Projected(Found(v, Finding(id, None, ORPHAN_ON_CHAIN, Nothing, Stands(PAID))), 0, 0, 0, 1)
    else
      var row, noted := v.payments[slot], Compared(v, ev);
      var n := Differences(row, ev);
      if row.state == PAID then Projected(noted, 0, 0, 0, n)
      else if MayMove(row, PAID) then Projected(Moved(noted, id, slot, PAID), 0, 0, 1, n)
      else Projected(Found(noted, Finding(id, Some(slot), CHAIN_PAID_DB_NOT, Stands(row.state), Stands(PAID))), 0, 0, 0, n + 1)
  }

  function CancelPayment(v: View, ev: CoreFlowEvent): Projected
    requires ev.PaymentCancelledEvent?
  {
    var id, slot := ev.escrowId, ev.paymentIndex;
    if slot !in v.payments then Kept(v)
    else if v.payments[slot].state == PAID then
      Projected(Found(v, Finding(id, Some(slot), DB_PAID_CHAIN_NOT, Stands(PAID), Stands(CANCELLED))), 0, 0, 0, 1)
    else if MayMove(v.payments[slot], CANCELLED) then Kept(Moved(v, id, slot, CANCELLED))
    else Kept(v)
  }

  const REVOCABLE: set<PaymentState> := {ORACLE_VERIFIED, AWAITING_MANAGER, AWAITING_FINANCE, READY_TO_SETTLE}

  /** The escrow's settlement summary marks nothing paid; it only notices payments that are not. */
  function Summarised(v: View, ev: CoreFlowEvent): Projected
    requires ev.FinalizedEvent?
  {
    if forall i :: i in v.payments ==> v.payments[i].state == PAID then Kept(v)
    else Projected(Found(v, Finding(ev.escrowId, None, CHAIN_PAID_DB_NOT, Nothing, SettledCount(ev.count))), 0, 0, 0, 1)
  }

  /** One event, on the view of the escrow it names. */
  function Project(v: View, ev: CoreFlowEvent): Projected {
    match ev
    case CreatedEvent(_, manager, total) => Kept(v.(escrow := v.escrow.(manager := manager, total := total), batch := true))
    case PaymentAddedEvent(_, _, _, _, _, _, _, _) => AddPayment(v, ev)
    case HoursEvent(_, _, _) => AcceptHours(v, ev)
    case ManagerApprovedEvent(id) => Approved(v, id, true)
    case FinanceApprovedEvent(id) => Approved(v, id, false)
    case PaymentPaidEvent(_, _, _, _, _, _) => ObservePaid(v, ev)
    case PaymentCancelledEvent(_, _) => CancelPayment(v, ev)
    case CancelledEvent(_) => Kept(v.(escrow := v.escrow.(cancelled := true)))
    case OracleRotatedEvent(_, rotations) =>
      Kept(v.(escrow := v.escrow.(rotations := rotations), payments := Restated(v.payments, REVOCABLE, AWAITING_ORACLE)))
    case FinalizedEvent(_, _, _) => Summarised(v, ev)
  }

  /** No event re-homes an escrow: its organization and deployment stay as the application recorded them. */
  lemma ProjectKeepsTenant(v: View, ev: CoreFlowEvent)
    ensures Project(v, ev).view.escrow.org == v.escrow.org && Project(v, ev).view.escrow.deployment == v.escrow.deployment
  {
  }

  /** One payment's state before and after an event: the same, one lawful write, or two in a row. */
  predicate LawfulMove(from: PaymentState, to: PaymentState) {
    || from == to
    || Writes(INDEXER, from, to)
    || (from == ORACLE_VERIFIED && to == AWAITING_FINANCE && Writes(INDEXER, from, AWAITING_MANAGER) && Writes(INDEXER, AWAITING_MANAGER, to))
  }

  /**
   * A step that makes only lawful moves and reports them exactly: at most `slot` is added, at most `slot` turns PAID,
   * and the findings it opened are counted.
   */
  ghost predicate Accounted(v: View, p: Projected, slot: nat) {
    var rows := p.view.payments;
    && p.created <= 1 && p.paid <= 1
    && rows.Keys == v.payments.Keys + (if p.created == 1 then {slot} else {})
    && (p.created == 1 ==> slot !in v.payments)
    && In(rows, PAID) == In(v.payments, PAID) + (if p.paid == 1 then {slot} else {})
    && (p.paid == 1 ==> slot !in In(v.payments, PAID))
    && (forall i :: i in v.payments ==> LawfulMove(v.payments[i].state, rows[i].state))
    && |p.view.findings| == |v.findings| + p.findings
  }

  lemma MovesAccounted(v: View, id: nat, slot: nat, to: PaymentState)
    requires slot in v.payments && v.payments[slot].state != PAID && MayMove(v.payments[slot], to)
    ensures Accounted(v, Projected(Moved(v, id, slot, to), 0, 0, if to == PAID then 1 else 0, 0), slot)
  {
    hide CheckTransition, FindTransition, IndexerWrites;
    assert LawfulMove(v.payments[slot].state, to);
  }

  lemma RestatedAccounted(v: View, slot: nat, escrow: EscrowRow, rows: PaymentRows, audits: multiset<Audit>)
    requires rows.Keys == v.payments.Keys
    requires forall i :: i in rows ==> LawfulMove(v.payments[i].state, rows[i].state)
    requires forall i :: i in rows ==> (rows[i].state == PAID <==> v.payments[i].state == PAID)
    ensures Accounted(v, Kept(v.(escrow := escrow, payments := rows, audits := audits)), slot)
  {
    hide LawfulMove;
  }

  lemma UntouchedAccounted(v: View, p: Projected, slot: nat)
    requires p.view.payments == v.payments && |p.view.findings| == |v.findings| + p.findings && p.created == p.paid == 0
    ensures Accounted(v, p, slot)
  {
  }

  /** Findings opened before a step only add to its count. */
  lemma NotedAccounted(v: View, noted: View, n: nat, p: Projected, slot: nat)
    requires noted.payments == v.payments && |noted.findings| == |v.findings| + n && Accounted(noted, p, slot)
    ensures Accounted(v, p.(findings := p.findings + n), slot)
  {
    hide LawfulMove;
  }

  lemma PaidAccounted(v: View, ev: CoreFlowEvent)
    requires ev.PaymentPaidEvent?
    ensures Accounted(v, ObservePaid(v, ev), ev.paymentIndex)
  {
    hide MayMove, IndexerWrites, LawfulMove, Compared, Differences, Accounted;
    var id, slot, p := ev.escrowId, ev.paymentIndex, ObservePaid(v, ev);
    if slot in v.payments && v.payments[slot].state != PAID && MayMove(v.payments[slot], PAID) {
      var noted := Compared(v, ev);
      MovesAccounted(noted, id, slot, PAID);
      NotedAccounted(v, noted, p.findings, Projected(p.view, 0, 0, 1, 0), slot);
    } else {
      UntouchedAccounted(v, p, slot);
    }
  }

  lemma AddPaymentAccounted(v: View, ev: CoreFlowEvent)
    requires ev.PaymentAddedEvent?
    ensures Accounted(v, AddPayment(v, ev), ev.paymentIndex)
  {
    hide MayMove, IndexerWrites, LawfulMove, Accounted;
    var slot, p := ev.paymentIndex, AddPayment(v, ev);
    if slot !in v.payments {
      CreatedAccounted(v, p, slot);
    } else if v.payments[slot].state == VALIDATING && MayMove(v.payments[slot], AWAITING_ORACLE) {
      var noted := v.(batch := true, findings := p.view.findings);
      MovesAccounted(noted, ev.escrowId, slot, AWAITING_ORACLE);
      NotedAccounted(v, noted, p.findings, Projected(p.view, 0, 0, 0, 0), slot);
      AdvanceIsNotCounted(v, p, slot);
    } else {
      UntouchedAccounted(v, p, slot);
    }
  }

  lemma CreatedAccounted(v: View, p: Projected, slot: nat)
    requires slot !in v.payments && slot in p.view.payments && p.view.payments[slot].state == AWAITING_ORACLE
    requires p.view.payments == v.payments[slot := p.view.payments[slot]] && p.view.findings == v.findings
    requires p.created == 1 && p.paid == 0 && p.findings == 0
    ensures Accounted(v, p, slot)
  {
    hide LawfulMove;
    SameStateLawful();
  }

  lemma SameStateLawful()
    ensures forall s: PaymentState :: LawfulMove(s, s)
  {
  }

  lemma AdvanceIsNotCounted(v: View, p: Projected, slot: nat)
    requires Accounted(v, p.(advanced := 0), slot)
    ensures Accounted(v, p, slot)
  {
    hide LawfulMove;
  }

  lemma CancelAccounted(v: View, ev: CoreFlowEvent)
    requires ev.PaymentCancelledEvent?
    ensures Accounted(v, CancelPayment(v, ev), ev.paymentIndex)
  {
    hide CheckTransition, FindTransition, IndexerWrites;
    var slot := ev.paymentIndex;
    if slot in v.payments && v.payments[slot].state != PAID && MayMove(v.payments[slot], CANCELLED) {
      MovesAccounted(v, ev.escrowId, slot, CANCELLED);
    }
  }

  lemma HoursAccounted(v: View, ev: CoreFlowEvent)
    requires ev.HoursEvent?
    ensures Accounted(v, AcceptHours(v, ev), ev.paymentIndex)
  {
    hide CheckTransition, FindTransition;
    if ev.paymentIndex in v.payments {
      var next := AcceptHours(v, ev).view;
      RestatedAccounted(v, ev.paymentIndex, v.escrow, next.payments, next.audits);
    }
  }

  lemma ApprovedAccounted(v: View, id: nat, byManager: bool, slot: nat)
    ensures Accounted(v, Approved(v, id, byManager), slot)
  {
    hide CheckTransition, FindTransition, AuditEach, In, Accounted;
    var next := Approved(v, id, byManager).view;
    RestatedAccounted(v, slot, next.escrow, next.payments, next.audits);
  }

  lemma RotatedAccounted(v: View, escrow: EscrowRow, slot: nat)
    ensures Accounted(v, Kept(v.(escrow := escrow, payments := Restated(v.payments, REVOCABLE, AWAITING_ORACLE))), slot)
  {
    hide CheckTransition, FindTransition;
    RestatedAccounted(v, slot, escrow, Restated(v.payments, REVOCABLE, AWAITING_ORACLE), v.audits);
  }

  /** The payment slot an event names, or an arbitrary one. */
  function SlotOf(ev: CoreFlowEvent): nat {
    match ev
    case PaymentAddedEvent(_, i, _, _, _, _, _, _) => i
    case HoursEvent(_, i, _) => i
    case PaymentPaidEvent(_, i, _, _, _, _) => i
    case PaymentCancelledEvent(_, i) => i
    case _ => 0
  }

  /** Every event moves payments only as the indexer may, and its counts say exactly what it did. */
  lemma ProjectAccounted(v: View, ev: CoreFlowEvent)
    ensures Accounted(v, Project(v, ev), SlotOf(ev))
  {
    hide Accounted, AddPayment, AcceptHours, ObservePaid, CancelPayment, Approved;
    match ev {
      case CreatedEvent(_, _, _) => UntouchedAccounted(v, Project(v, ev), 0);
      case PaymentAddedEvent(_, _, _, _, _, _, _, _) => AddPaymentAccounted(v, ev);
      case HoursEvent(_, _, _) => HoursAccounted(v, ev);
      case ManagerApprovedEvent(id) => ApprovedAccounted(v, id, true, 0);
      case FinanceApprovedEvent(id) => ApprovedAccounted(v, id, false, 0);
      case PaymentPaidEvent(_, _, _, _, _, _) => PaidAccounted(v, ev);
      case PaymentCancelledEvent(_, _) => CancelAccounted(v, ev);
      case CancelledEvent(_) => UntouchedAccounted(v, Project(v, ev), 0);
      case OracleRotatedEvent(_, n) => RotatedAccounted(v, v.escrow.(rotations := n), 0);
      case FinalizedEvent(_, _, _) => UntouchedAccounted(v, Project(v, ev), 0);
    }
  }

  /** So summed over a run, the counts are the payments added, the payments turned PAID and the findings opened. */
  lemma CountsAreExact(v: View, ev: CoreFlowEvent)
    ensures
      var p := Project(v, ev);
      && |p.view.payments| == |v.payments| + p.created
      && |In(p.view.payments, PAID)| == |In(v.payments, PAID)| + p.paid
      && |p.view.findings| == |v.findings| + p.findings
  {
    hide Project, In;
    ProjectAccounted(v, ev);
    var p := Project(v, ev);
    assert |p.view.payments| == |p.view.payments.Keys| && |v.payments| == |v.payments.Keys|;
  }

  // ----- many escrows -----

  /** What is kept of an ingested event, keyed by its paging token. */
  datatype Mark = Mark(attributed: bool, deployment: Deployment, ledger: nat, payload: Option<Object>)

  type Token = nat

  datatype Store = Store(views: map<nat, View>, workers: set<(string, Address)>, marks: map<Token, Mark>)

  datatype Applied = Unattributed | Attributed(created: nat, paid: nat, findings: nat)

  /** An event belongs to an organization only through an escrow row recorded for this deployment. */
  predicate Mapped(d: Deployment, s: Store, id: nat) {
    id in s.views && s.views[id].escrow.deployment == d
  }

  function WorkersOf(s: Store, ev: CoreFlowEvent): set<(string, Address)>
    requires ev.escrowId in s.views
  {
    if ev.PaymentAddedEvent? then s.workers + {(s.views[ev.escrowId].escrow.org, ev.worker)} else s.workers
  }

  function ApplyEvent(d: Deployment, s: Store, ev: CoreFlowEvent): (Applied, Store) {
    if !Mapped(d, s, ev.escrowId) then (Unattributed, s)
    else
      var p := Project(s.views[ev.escrowId], ev);
      (Attributed(p.created, p.paid, p.findings),
       s.(views := s.views[ev.escrowId := p.view], workers := WorkersOf(s, ev)))
  }
}
