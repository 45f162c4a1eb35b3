/**
 * The projection mirrors the contract: fed any run's event log, the database's picture of an escrow is an exact
 * function of the escrow's on-chain state and of which approval came first.
 */
module Refinement {
  import opened Prelude
  import opened ByteStrings
  import opened Escrow
  import opened CoreFlowContract
  import opened ContractRuns
  import opened StateMachine
  import opened Events
  import opened Projection

  /** The view after applying the log's entries for one escrow, in order. */
  function Replayed(v: View, log: seq<ContractEvent>, id: nat): View {
    if log == [] then v
    else
      var before, ev := Replayed(v, log[..|log| - 1], id), ParseEvent(log[|log| - 1]);
      if ev.Some? && ev.value.escrowId == id then Project(before, ev.value).view else before
  }

  datatype Approver = ByManager | ByFinance

  /** Whose approval of the escrow the log shows first. */
  function FirstApprover(log: seq<ContractEvent>, id: nat): Option<Approver> {
    if log == [] then None
    else
      var before, ev := FirstApprover(log[..|log| - 1], id), ParseEvent(log[|log| - 1]);
      if before.Some? then before
      else if ev == Some(ManagerApprovedEvent(id)) then Some(ByManager)
      else if ev == Some(FinanceApprovedEvent(id)) then Some(ByFinance)
      else None
  }

  /** The state the database shows for one payment slot. */
  function StateOf(e: CoreFlowEscrow, p: PaymentSchedule, first: Option<Approver>): PaymentState {
    if e.cancelled then CANCELLED
    else if p.status == Finalized then (if first == Some(ByFinance) then AWAITING_FINANCE else PAID)
    else if !p.proofVerified then AWAITING_ORACLE
    else if !e.managerApproved && !e.financeApproved then ORACLE_VERIFIED
    else if !e.managerApproved then AWAITING_MANAGER
    else if !e.financeApproved || first == Some(ByFinance) then AWAITING_FINANCE
    else READY_TO_SETTLE
  }

  function UnpaidFindings(id: nat, n: nat): multiset<Finding> {
    if n == 0 then multiset{}
    else UnpaidFindings(id, n - 1) + multiset{Finding(id, Some(n - 1), CHAIN_PAID_DB_NOT, Stands(AWAITING_FINANCE), Stands(PAID))}
  }

  /** The findings the projection opens: none, unless finance approved first and the escrow settled anyway. */
  function FindingsFor(id: nat, e: CoreFlowEscrow, first: Option<Approver>): multiset<Finding> {
    if AllFinalized(e.payments) && first == Some(ByFinance)
    then UnpaidFindings(id, |e.payments|) + multiset{Finding(id, None, CHAIN_PAID_DB_NOT, Nothing, SettledCount(|e.payments|))}
    else multiset{}
  }

  /** The figures of a payment the projection itself created: the slot's own asset, rate and period, and hours that earn its amount. */
  predicate Figures(row: PaymentRow, p: PaymentSchedule) {
    && row.asset == Some(p.token) && row.rate == p.ratePerHour
    && row.periodStart == (if p.startDate == 0 then None else Some(1000 * p.startDate))
    && row.periodEnd == (if p.endDate == 0 then None else Some(1000 * p.endDate))
    && row.hours * p.ratePerHour == p.amount
  }

  lemma FiguresKept(row: PaymentRow, row': PaymentRow, p: PaymentSchedule, p': PaymentSchedule)
    requires row' == row.(state := row'.state) && TermsOf(p') == TermsOf(p)
    ensures Figures(row, p) ==> Figures(row', p')
  {
  }

  /** The payment the application had linked to this slot, if any. */
  function RowAt(v: View, i: nat): Option<PaymentRow> {
    if i in v.payments then Some(v.payments[i]) else None
  }

  /**
   * A payment the projection created has the slot's figures; one the application had linked keeps all of its own, whatever
   * the chain says, but for its state and its hours. With its proof in, a payment shows the attested hours.
   */
  ghost predicate RowMirrors(row: PaymentRow, e: CoreFlowEscrow, p: PaymentSchedule, first: Option<Approver>, was: Option<PaymentRow>) {
    && row.state == StateOf(e, p, first)
    && (p.proofVerified ==> row.hours * p.ratePerHour == p.amount)
    && match was
       case None => row.recipient == p.worker && row.amount == p.amount && Figures(row, p)
       case Some(linked) => row == linked.(state := row.state, hours := row.hours)
  }

  // ----- disagreements over figures -----

  /** A linked payment whose payee or amount is not the slot's is noted when the slot is added, with both sides. */
  function AddedNote(was: Option<PaymentRow>, id: nat, i: nat, p: PaymentSchedule): multiset<Finding> {
    if was.Some? && (was.value.recipient != p.worker || was.value.amount != p.amount)
    then multiset{Finding(id, Some(i), AMOUNT_MISMATCH, PayeeAmount(was.value.recipient, was.value.amount), PayeeAmount(p.worker, p.amount))}
    else multiset{}
  }

  /** And again when the slot is settled, amount and payee each on their own. */
  function PaidNote(was: Option<PaymentRow>, id: nat, i: nat, p: PaymentSchedule): multiset<Finding> {
    (if was.Some? && was.value.amount != p.amount
     then multiset{Finding(id, Some(i), AMOUNT_MISMATCH, Amount(was.value.amount), Amount(p.amount))} else multiset{})
    + (if was.Some? && was.value.recipient != p.worker
       then multiset{Finding(id, Some(i), RECIPIENT_MISMATCH, Payee(was.value.recipient), Payee(p.worker))} else multiset{})
  }

  function AddedNotes(v: View, id: nat, rows: Rows, n: nat): multiset<Finding>
    requires n <= |rows|
  {
    if n == 0 then multiset{} else AddedNotes(v, id, rows, n - 1) + AddedNote(RowAt(v, n - 1), id, n - 1, rows[n - 1])
  }

  function PaidNotes(v: View, id: nat, rows: Rows, n: nat): multiset<Finding>
    requires n <= |rows|
  {
    if n == 0 then multiset{} else PaidNotes(v, id, rows, n - 1) + PaidNote(RowAt(v, n - 1), id, n - 1, rows[n - 1])
  }

  /** What the projection has to say of the figures of payments linked before it began. */
  function Notes(v0: View, id: nat, rows: Rows): multiset<Finding> {
    AddedNotes(v0, id, rows, |rows|) + if AllFinalized(rows) then PaidNotes(v0, id, rows, |rows|) else multiset{}
  }

  /** Both depend on payees and amounts alone; a payment with the slot's own figures has nothing noted. */
  predicate SameFigures(was: Option<PaymentRow>, was': Option<PaymentRow>, p: PaymentSchedule) {
    match was
    case Some(row) => was'.Some? && was'.value.recipient == row.recipient && was'.value.amount == row.amount
    case None => was'.Some? ==> was'.value.recipient == p.worker && was'.value.amount == p.amount
  }

  lemma SameNote(was: Option<PaymentRow>, was': Option<PaymentRow>, id: nat, i: nat, p: PaymentSchedule, p': PaymentSchedule)
    requires SameFigures(was, was', p) && TermsOf(p') == TermsOf(p)
    ensures AddedNote(was', id, i, p') == AddedNote(was, id, i, p) && PaidNote(was', id, i, p') == PaidNote(was, id, i, p)
  {
  }

  lemma {:induction false} SameNotes(v: View, v': View, id: nat, rows: Rows, rows': Rows, n: nat)
    requires n <= |rows| && SameTerms(rows, rows')
    requires forall i :: 0 <= i < n ==> SameFigures(RowAt(v, i), RowAt(v', i), rows[i])
    ensures AddedNotes(v', id, rows', n) == AddedNotes(v, id, rows, n) && PaidNotes(v', id, rows', n) == PaidNotes(v, id, rows, n)
  {
    hide AddedNote, PaidNote, SameFigures, RowAt;
    if n > 0 {
      SameNotes(v, v', id, rows, rows', n - 1);
      SameNote(RowAt(v, n - 1), RowAt(v', n - 1), id, n - 1, rows[n - 1], rows'[n - 1]);
    }
  }

  /** While the rows keep their terms, only settlement adds to what is noted. */
  lemma NotesStay(v0: View, id: nat, rows: Rows, rows': Rows)
    requires SameTerms(rows, rows') && !AllFinalized(rows)
    ensures Notes(v0, id, rows') == Notes(v0, id, rows) + if AllFinalized(rows') then PaidNotes(v0, id, rows, |rows|) else multiset{}
  {
    SameNotes(v0, v0, id, rows, rows', |rows|);
    hide AddedNotes, PaidNotes;
  }

  ghost predicate Mirrors(v0: View, v: View, id: nat, e: CoreFlowEscrow, first: Option<Approver>) {
    && v.escrow == v0.escrow.(manager := e.manager, total := Total(e.payments), managerApproved := e.managerApproved,
                              financeApproved := e.financeApproved, cancelled := e.cancelled, rotations := e.oracleRotations)
    && (forall i :: i in v.payments <==> 0 <= i < |e.payments|)
    && (forall i :: 0 <= i < |e.payments| ==> RowMirrors(v.payments[i], e, e.payments[i], first, RowAt(v0, i)))
    && v.findings == v0.findings + Notes(v0, id, e.payments) + FindingsFor(id, e, first)
  }

  /** What holds of an escrow whose rows entered Pending and unverified. */
  ghost predicate Uniform(e: CoreFlowEscrow, first: Option<Approver>) {
    && |e.payments| > 0
    && (first == None <==> !e.managerApproved && !e.financeApproved)
    && (first == Some(ByManager) ==> e.managerApproved) && (first == Some(ByFinance) ==> e.financeApproved)
    && (e.cancelled ==> forall i :: 0 <= i < |e.payments| ==> e.payments[i].status == Cancelled)
    && (AllFinalized(e.payments) ==> forall i :: 0 <= i < |e.payments| ==> e.payments[i].proofVerified)
    && (!e.cancelled && !AllFinalized(e.payments) ==> forall i :: 0 <= i < |e.payments| ==> e.payments[i].status == Pending)
  }

  /** A newly claimed escrow: nothing observed yet. */
  predicate Unobserved(v: View) {
    !v.escrow.managerApproved && !v.escrow.financeApproved && !v.escrow.cancelled && v.escrow.rotations == 0
  }

  /** Payments the application already linked are to slots this escrow has, and wait in VALIDATING; they need not agree with them. */
  ghost predicate Prelinked(v: View, rows: Rows) {
    forall i :: i in v.payments ==> 0 <= i < |rows| && v.payments[i].state == VALIDATING
  }

  predicate Agrees(was: Option<PaymentRow>, p: PaymentSchedule) {
    was.Some? ==> was.value.recipient == p.worker && was.value.amount == p.amount
  }

  /** They do agree with the rows the escrow was funded with. */
  ghost predicate Agreeing(v: View, rows: Rows) {
    forall i :: 0 <= i < |rows| ==> Agrees(RowAt(v, i), rows[i])
  }

  lemma AgreeingNote(was: Option<PaymentRow>, id: nat, i: nat, p: PaymentSchedule)
    ensures AddedNote(was, id, i, p) == multiset{} <==> Agrees(was, p)
    ensures Agrees(was, p) ==> PaidNote(was, id, i, p) == multiset{}
  {
    if !Agrees(was, p) {
      assert |AddedNote(was, id, i, p)| == 1;
    }
  }

  lemma EmptySum(a: multiset<Finding>, b: multiset<Finding>)
    ensures a + b == multiset{} <==> a == multiset{} && b == multiset{}
  {
    assert |a + b| == |a| + |b|;
  }

  lemma {:induction false} AgreeingNotes(v: View, id: nat, rows: Rows, n: nat)
    requires n <= |rows|
    ensures AddedNotes(v, id, rows, n) == multiset{} <==> forall i :: 0 <= i < n ==> Agrees(RowAt(v, i), rows[i])
    ensures (forall i :: 0 <= i < n ==> Agrees(RowAt(v, i), rows[i])) ==> PaidNotes(v, id, rows, n) == multiset{}
  {
    hide AddedNote, PaidNote, Agrees, RowAt;
    if n > 0 {
      AgreeingNotes(v, id, rows, n - 1);
      AgreeingNote(RowAt(v, n - 1), id, n - 1, rows[n - 1]);
      EmptySum(AddedNotes(v, id, rows, n - 1), AddedNote(RowAt(v, n - 1), id, n - 1, rows[n - 1]));
    }
  }

  /** Nothing is noted if and only if every linked payment has its slot's payee and amount. */
  lemma NotesExactly(v: View, id: nat, rows: Rows)
    ensures Notes(v, id, rows) == multiset{} <==> Agreeing(v, rows)
  {
    AgreeingNotes(v, id, rows, |rows|);
    hide AddedNotes, PaidNotes, AllFinalized, Agrees;
    EmptySum(AddedNotes(v, id, rows, |rows|), if AllFinalized(rows) then PaidNotes(v, id, rows, |rows|) else multiset{});
  }

  predicate RowsEnterPending(st: Step) {
    st.call.InitializeCall? ==> forall k :: 0 <= k < |st.call.rows| ==> st.call.rows[k].status == Pending && !st.call.rows[k].proofVerified
  }

  /** The call that created the escrow passed rows Pending and unverified, as the client does. */
  ghost predicate EntersPending(h: Host, s0: Chain, tr: Trace, id: nat) {
    forall i :: 0 <= i < |tr| && Founds(h, s0, tr, i, id) ==> RowsEnterPending(tr[i])
  }

  // ----- logs -----

  lemma {:induction false} ReplayedSplit(v: View, a: seq<ContractEvent>, b: seq<ContractEvent>, id: nat)
    ensures Replayed(v, a + b, id) == Replayed(Replayed(v, a, id), b, id)
  {
    hide Project, ParseEvent;
    if b == [] {
      assert a + b == a;
    } else {
      var n := |b| - 1;
      ReplayedSplit(v, a, b[..n], id);
      assert (a + b)[..|a + b| - 1] == a + b[..n];
    }
  }

  lemma ReplayedOne(v: View, e: ContractEvent, id: nat)
    ensures
      var ev := ParseEvent(e);
      Replayed(v, [e], id) == if ev.Some? && ev.value.escrowId == id then Project(v, ev.value).view else v
  {
    hide Project, ParseEvent;
    assert [e][..0] == [];
  }

  predicate Mentions(e: ContractEvent, id: nat) {
    var ev := ParseEvent(e);
    ev.Some? && ev.value.escrowId == id
  }

  lemma {:induction false} Unmentioned(v: View, log: seq<ContractEvent>, b: seq<ContractEvent>, id: nat)
    requires forall e :: e in b ==> !Mentions(e, id)
    ensures Replayed(v, b, id) == v && FirstApprover(log + b, id) == FirstApprover(log, id)
  {
    hide Project, ParseEvent;
    if b == [] {
      assert log + b == log;
    } else {
      var n := |b| - 1;
      Unmentioned(v, log, b[..n], id);
      assert (log + b)[..|log + b| - 1] == log + b[..n];
      assert b[n] in b;
    }
  }

  predicate IsApproval(e: ContractEvent, id: nat) {
    ParseEvent(e) == Some(ManagerApprovedEvent(id)) || ParseEvent(e) == Some(FinanceApprovedEvent(id))
  }

  lemma {:induction false} NoApprovals(log: seq<ContractEvent>, b: seq<ContractEvent>, id: nat)
    requires forall e :: e in b ==> !IsApproval(e, id)
    ensures FirstApprover(log + b, id) == FirstApprover(log, id)
  {
    hide ParseEvent;
    if b == [] {
      assert log + b == log;
    } else {
      var n := |b| - 1;
      NoApprovals(log, b[..n], id);
      assert (log + b)[..|log + b| - 1] == log + b[..n];
      assert b[n] in b;
    }
  }

  /** The events of one row, as the projection reads them. */
  function AddedEvent(id: nat, i: nat, p: PaymentSchedule): CoreFlowEvent {
    PaymentAddedEvent(id, i, p.worker, p.token, p.amount, p.ratePerHour, p.startDate, p.endDate)
  }

  function PaidEvent(id: nat, i: nat, p: PaymentSchedule): CoreFlowEvent {
    PaymentPaidEvent(id, i, p.worker, p.token, p.amount, p.hoursLogged)
  }

  lemma AddParses(id: nat, i: nat, p: PaymentSchedule)
    ensures
      ParseEvent(ContractEvent(Payment, Add, [Num(id), Num(i), Addr(p.worker), Addr(p.token), Num(p.amount),
                                              Num(p.ratePerHour), Num(p.startDate), Num(p.endDate)]))
      == Some(PaymentAddedEvent(id, i, p.worker, p.token, p.amount, p.ratePerHour, p.startDate, p.endDate))
  {
  }

  lemma PaidParses(id: nat, i: nat, p: PaymentSchedule)
    ensures
      ParseEvent(ContractEvent(Payment, Paid, [Num(id), Num(i), Addr(p.worker), Addr(p.token), Num(p.amount), Num(p.hoursLogged)]))
      == Some(PaymentPaidEvent(id, i, p.worker, p.token, p.amount, p.hoursLogged))
  {
  }

  /** The events of every kind of call, as the projection reads them. */
  lemma {:induction false} RowEventsParse(id: nat, rows: Rows)
    ensures |RowEvents(id, rows)| == |rows|
    ensures forall i :: 0 <= i < |rows| ==>
      ParseEvent(RowEvents(id, rows)[i])
      == Some(PaymentAddedEvent(id, i, rows[i].worker, rows[i].token, rows[i].amount, rows[i].ratePerHour, rows[i].startDate, rows[i].endDate))
  {
    if rows != [] {
      var n, p := |rows| - 1, rows[|rows| - 1];
      RowEventsParse(id, rows[..n]);
      AddParses(id, n, p);
      hide ParseEvent;
    }
  }

  lemma {:induction false} PaidEventsParse(id: nat, rows: Rows)
    ensures |PaidEvents(id, rows)| == |rows|
    ensures forall i :: 0 <= i < |rows| ==>
      ParseEvent(PaidEvents(id, rows)[i])
      == Some(PaymentPaidEvent(id, i, rows[i].worker, rows[i].token, rows[i].amount, rows[i].hoursLogged))
  {
    if rows != [] {
      var n, p := |rows| - 1, rows[|rows| - 1];
      PaidEventsParse(id, rows[..n]);
      PaidParses(id, n, p);
      hide ParseEvent;
    }
  }

  lemma {:induction false} CancelEventsParse(id: nat, n: nat)
    ensures forall i :: 0 <= i < n ==> ParseEvent(CancelEvents(id, n)[i]) == Some(PaymentCancelledEvent(id, i))
  {
    if n > 0 {
      CancelEventsParse(id, n - 1);
    }
  }

  lemma ReplayedSnoc(v: View, log: seq<ContractEvent>, e: ContractEvent, id: nat, ev: CoreFlowEvent)
    requires ParseEvent(e) == Some(ev) && ev.escrowId == id
    ensures Replayed(v, log + [e], id) == Project(Replayed(v, log, id), ev).view
  {
    hide Project, ParseEvent;
    assert (log + [e])[..|log|] == log;
  }

  lemma ProjectCases(v: View, ev: CoreFlowEvent)
    ensures ev.PaymentAddedEvent? ==> Project(v, ev) == AddPayment(v, ev)
    ensures ev.PaymentPaidEvent? ==> Project(v, ev) == ObservePaid(v, ev)
    ensures ev.PaymentCancelledEvent? ==> Project(v, ev) == CancelPayment(v, ev)
    ensures ev.FinalizedEvent? ==> Project(v, ev) == Summarised(v, ev)
    ensures ev.HoursEvent? ==> Project(v, ev) == AcceptHours(v, ev)
    ensures ev.ManagerApprovedEvent? ==> Project(v, ev) == Approved(v, ev.escrowId, true)
    ensures ev.FinanceApprovedEvent? ==> Project(v, ev) == Approved(v, ev.escrowId, false)
    ensures ev.CancelledEvent? ==> Project(v, ev).view == v.(escrow := v.escrow.(cancelled := true))
  {
    hide AddPayment, ObservePaid, CancelPayment, Summarised, Approved, AcceptHours;
  }

  lemma RowEventsSnoc(v: View, id: nat, rows: Rows, n: nat)
    requires 0 < n <= |rows|
    ensures
      Replayed(v, RowEvents(id, rows[..n]), id)
      == AddPayment(Replayed(v, RowEvents(id, rows[..n - 1]), id), AddedEvent(id, n - 1, rows[n - 1])).view
  {
    hide AddPayment, ParseEvent, Project, Replayed;
    assert rows[..n][..n - 1] == rows[..n - 1];
    RowEventsParse(id, rows[..n]);
    var before, log := RowEvents(id, rows[..n - 1]), RowEvents(id, rows[..n]);
    var ev := ParseEvent(log[n - 1]).value;
    assert log == before + [log[n - 1]];
    ReplayedSnoc(v, before, log[n - 1], id, ev);
    ProjectCases(Replayed(v, before, id), ev);
  }

  lemma PaidEventsSnoc(v: View, id: nat, rows: Rows, n: nat)
    requires 0 < n <= |rows|
    ensures
      Replayed(v, PaidEvents(id, rows[..n]), id)
      == ObservePaid(Replayed(v, PaidEvents(id, rows[..n - 1]), id), PaidEvent(id, n - 1, rows[n - 1])).view
  {
    hide ObservePaid, ParseEvent, Project, Replayed;
    assert rows[..n][..n - 1] == rows[..n - 1];
    PaidEventsParse(id, rows[..n]);
    var before, log := PaidEvents(id, rows[..n - 1]), PaidEvents(id, rows[..n]);
    var ev := ParseEvent(log[n - 1]).value;
    assert log == before + [log[n - 1]];
    ReplayedSnoc(v, before, log[n - 1], id, ev);
    ProjectCases(Replayed(v, before, id), ev);
  }

  lemma CancelEventsSnoc(v: View, id: nat, n: nat)
    requires 0 < n
    ensures
      Replayed(v, CancelEvents(id, n), id)
      == CancelPayment(Replayed(v, CancelEvents(id, n - 1), id), PaymentCancelledEvent(id, n - 1)).view
  {
    hide CancelPayment, ParseEvent, Project, Replayed;
    CancelEventsParse(id, n);
    var before, log := CancelEvents(id, n - 1), CancelEvents(id, n);
    ReplayedSnoc(v, before, log[n - 1], id, PaymentCancelledEvent(id, n - 1));
    ProjectCases(Replayed(v, before, id), PaymentCancelledEvent(id, n - 1));
  }

  // ----- each kind of call keeps the picture exact -----

  lemma TableFacts(row: PaymentRow)
    ensures row.state in {AWAITING_ORACLE, ORACLE_VERIFIED, AWAITING_MANAGER, AWAITING_FINANCE, READY_TO_SETTLE} ==> MayMove(row, CANCELLED)
    ensures row.state == READY_TO_SETTLE ==> MayMove(row, PAID)
    ensures row.state == AWAITING_FINANCE ==> !MayMove(row, PAID)
    ensures row.state == VALIDATING ==> MayMove(row, AWAITING_ORACLE)
  {
  }

  lemma AddedFacts(v: View, id: nat, slot: nat, p: PaymentSchedule)
    requires slot in v.payments ==> v.payments[slot].state == VALIDATING
    ensures
      var w := AddPayment(v, AddedEvent(id, slot, p)).view;
      && w.escrow == v.escrow && w.findings == v.findings + AddedNote(RowAt(v, slot), id, slot, p)
      && slot in w.payments && w.payments == v.payments[slot := w.payments[slot]]
      && if slot in v.payments then w.payments[slot] == v.payments[slot].(state := AWAITING_ORACLE)
         else p.ratePerHour > 0 ==>
           w.payments[slot] == PaymentRow(p.worker, Some(p.token), p.amount, p.ratePerHour, Quotient(p.amount, p.ratePerHour),
                                          Milliseconds(p.startDate), Milliseconds(p.endDate), AWAITING_ORACLE)
  {
    hide MayMove;
    if slot in v.payments {
      TableFacts(v.payments[slot]);
    }
  }

  /** The row a newly added slot shows. */
  ghost predicate RowAdded(row: PaymentRow, was: Option<PaymentRow>, p: PaymentSchedule) {
    match was
    case Some(linked) => row == linked.(state := AWAITING_ORACLE)
    case None => row.state == AWAITING_ORACLE && row.recipient == p.worker && row.amount == p.amount && Figures(row, p)
  }

  /** From `v`, the first `n` rows have been added and nothing else has changed. */
  ghost predicate AddedUpTo(v: View, w: View, id: nat, rows: Rows, n: nat)
    requires n <= |rows|
  {
    && w.escrow == v.escrow && w.findings == v.findings + AddedNotes(v, id, rows, n)
    && (forall i :: i in w.payments <==> i in v.payments || 0 <= i < n)
    && (forall i :: 0 <= i < n ==> RowAdded(w.payments[i], RowAt(v, i), rows[i]))
    && (forall i :: i in v.payments && i >= n ==> w.payments[i] == v.payments[i])
  }

  lemma WholeHours(amount: int, rate: int)
    requires amount > 0 && rate > 0 && amount % rate == 0
    ensures Quotient(amount, rate) * rate == amount
  {
  }

  lemma AddOneMore(v: View, w: View, id: nat, rows: Rows, n: nat)
    requires n < |rows| && Prelinked(v, rows) && AddedUpTo(v, w, id, rows, n) && GoodRow(rows[n])
    ensures AddedUpTo(v, AddPayment(w, AddedEvent(id, n, rows[n])).view, id, rows, n + 1)
  {
    hide AddPayment, Quotient, AddedNote;
    AddedFacts(w, id, n, rows[n]);
    WholeHours(rows[n].amount, rows[n].ratePerHour);
    assert RowAt(w, n) == RowAt(v, n);
    var w' := AddPayment(w, AddedEvent(id, n, rows[n])).view;
    assert RowAdded(w'.payments[n], RowAt(v, n), rows[n]);
    hide RowAdded, Figures;
  }

  lemma NoneAdded(v: View, id: nat, rows: Rows)
    ensures AddedUpTo(v, Replayed(v, RowEvents(id, rows[..0]), id), id, rows, 0)
  {
    assert RowEvents(id, rows[..0]) == [];
  }

  lemma {:induction false} RowsAdded(v: View, id: nat, rows: Rows, n: nat)
    requires n <= |rows| && Prelinked(v, rows) && forall k :: 0 <= k < |rows| ==> GoodRow(rows[k])
    ensures AddedUpTo(v, Replayed(v, RowEvents(id, rows[..n]), id), id, rows, n)
  {
    hide *;
    if n == 0 {
      NoneAdded(v, id, rows);
    } else {
      RowsAdded(v, id, rows, n - 1);
      RowEventsSnoc(v, id, rows, n);
      AddOneMore(v, Replayed(v, RowEvents(id, rows[..n - 1]), id), id, rows, n - 1);
    }
  }

  lemma CreatedView(v0: View, id: nat, manager: Address, rows: Rows)
    ensures
      Replayed(v0, CreationEvents(id, manager, Total(rows), rows), id)
      == Replayed(v0.(escrow := v0.escrow.(manager := manager, total := Total(rows)), batch := true), RowEvents(id, rows), id)
  {
    hide Project, ParseEvent, RowEvents, Replayed;
    var head := ContractEvent(EscrowSym, Created, [Num(id), Addr(manager), Num(Total(rows))]);
    ReplayedSplit(v0, [head], RowEvents(id, rows), id);
    HeadView(v0, id, manager, Total(rows));
  }

  lemma HeadView(v0: View, id: nat, manager: Address, total: int)
    ensures
      Replayed(v0, [ContractEvent(EscrowSym, Created, [Num(id), Addr(manager), Num(total)])], id)
      == v0.(escrow := v0.escrow.(manager := manager, total := total), batch := true)
  {
    hide AddPayment;
    var head := ContractEvent(EscrowSym, Created, [Num(id), Addr(manager), Num(total)]);
    ReplayedOne(v0, head, id);
    assert ParseEvent(head) == Some(CreatedEvent(id, manager, total));
  }

  lemma CreationIsNoApproval(log: seq<ContractEvent>, id: nat, manager: Address, rows: Rows)
    ensures
      var evs := CreationEvents(id, manager, Total(rows), rows);
      FirstApprover(log + evs, id) == FirstApprover(log, id)
  {
    hide RowEvents;
    RowEventsParse(id, rows);
    NoApprovals(log, CreationEvents(id, manager, Total(rows), rows), id);
  }

  lemma CreateMirrors(v0: View, id: nat, e: CoreFlowEscrow)
    requires Unobserved(v0) && Prelinked(v0, e.payments) && |e.payments| > 0
    requires e == NewEscrow(e.manager, e.financeApprover, e.oraclePubkey, e.payments)
    requires forall k :: 0 <= k < |e.payments| ==> e.payments[k].status == Pending && !e.payments[k].proofVerified && GoodRow(e.payments[k])
    ensures
      var evs := CreationEvents(id, e.manager, Total(e.payments), e.payments);
      Mirrors(v0, Replayed(v0, evs, id), id, e, None) && Uniform(e, None)
  {
    hide Replayed, RowEvents, Uniform, Mirrors, AddedUpTo, Prelinked;
    var rows := e.payments;
    var v1 := v0.(escrow := v0.escrow.(manager := e.manager, total := Total(rows)), batch := true);
    CreatedView(v0, id, e.manager, rows);
    assert rows[..|rows|] == rows;
    PrelinkedAlike(v0, v1, rows);
    RowsAdded(v1, id, rows, |rows|);
    AddedIsMirrored(v0, v1, Replayed(v1, RowEvents(id, rows), id), id, e);
  }

  lemma PrelinkedAlike(v0: View, v1: View, rows: Rows)
    requires Prelinked(v0, rows) && v1.payments == v0.payments
    ensures Prelinked(v1, rows)
  {
  }

  lemma AddedIsMirrored(v0: View, v1: View, w: View, id: nat, e: CoreFlowEscrow)
    requires Unobserved(v0) && Prelinked(v0, e.payments) && |e.payments| > 0
    requires e == NewEscrow(e.manager, e.financeApprover, e.oraclePubkey, e.payments)
    requires forall k :: 0 <= k < |e.payments| ==> e.payments[k].status == Pending && !e.payments[k].proofVerified
    requires v1 == v0.(escrow := v0.escrow.(manager := e.manager, total := Total(e.payments)), batch := true)
    requires AddedUpTo(v1, w, id, e.payments, |e.payments|)
    ensures Mirrors(v0, w, id, e, None) && Uniform(e, None)
  {
    hide StateOf, Figures, AddedNotes, PaidNotes, Total, SameFigures;
    var rows := e.payments;
    assert !AllFinalized(rows) by { assert rows[0].status == Pending; }
    NothingFound(id, e, None);
    SameRowsSameNotes(v0, v1, id, rows);
    hide AllFinalized, FindingsFor;
    forall i | 0 <= i < |rows| ensures RowMirrors(w.payments[i], e, rows[i], None, RowAt(v0, i)) {
      assert rows[i].status == Pending && !rows[i].proofVerified;
      assert RowAdded(w.payments[i], RowAt(v1, i), rows[i]) && RowAt(v1, i) == RowAt(v0, i);
      PendingState(e, rows[i]);
    }
  }

  lemma SameRowsSameNotes(v0: View, v1: View, id: nat, rows: Rows)
    requires v1.payments == v0.payments
    ensures AddedNotes(v1, id, rows, |rows|) == AddedNotes(v0, id, rows, |rows|)
  {
    forall i | 0 <= i < |rows| ensures SameFigures(RowAt(v0, i), RowAt(v1, i), rows[i]) {
      assert RowAt(v0, i) == RowAt(v1, i);
    }
    SameNotes(v0, v1, id, rows, rows, |rows|);
  }

  lemma PendingState(e: CoreFlowEscrow, p: PaymentSchedule)
    requires !e.cancelled && p.status == Pending && !p.proofVerified
    ensures StateOf(e, p, None) == AWAITING_ORACLE
  {
  }

  lemma OpenRows(rows: Rows, rows': Rows)
    requires |rows| == |rows'| && forall i :: 0 <= i < |rows| ==> rows'[i].status == rows[i].status
    ensures AllFinalized(rows') == AllFinalized(rows)
  {
    if AllFinalized(rows') {
      forall i | 0 <= i < |rows| ensures rows[i].status == Finalized {
        assert rows'[i].status == Finalized;
      }
    }
  }

  lemma NothingFound(id: nat, e: CoreFlowEscrow, first: Option<Approver>)
    ensures !AllFinalized(e.payments) ==> FindingsFor(id, e, first) == multiset{}
  {
  }

  lemma SubmitMirrors(v0: View, v: View, id: nat, e: CoreFlowEscrow, first: Option<Approver>, pid: nat, hours: int)
    requires Mirrors(v0, v, id, e, first) && Uniform(e, first) && pid < |e.payments|
    requires !e.managerApproved && !e.financeApproved && !e.cancelled && !AllFinalized(e.payments)
    requires -I128_LIMIT <= hours < I128_LIMIT && hours * e.payments[pid].ratePerHour == e.payments[pid].amount
    ensures
      var e' := e.(payments := e.payments[pid := e.payments[pid].(hoursLogged := hours, proofVerified := true)]);
      Mirrors(v0, AcceptHours(v, HoursEvent(id, pid, hours)).view, id, e', first) && Uniform(e', first)
  {
    hide Total, AllFinalized, FindingsFor, AcceptHours, Figures, StateOf, Uniform, RowMirrors, Notes;
    var e' := e.(payments := e.payments[pid := e.payments[pid].(hoursLogged := hours, proofVerified := true)]);
    SameAmountsTotal(e.payments, e'.payments);
    UniformProven(e, first, pid, hours);
    AllPending(e, first);
    OpenRows(e.payments, e'.payments);
    NothingFound(id, e, first);
    NothingFound(id, e', first);
    NotesStay(v0, id, e.payments, e'.payments);
    var ev := HoursEvent(id, pid, hours);
    HoursFacts(v, ev);
    var w := AcceptHours(v, ev).view;
    forall i | 0 <= i < |e'.payments|
      ensures RowMirrors(w.payments[i], e', e'.payments[i], first, RowAt(v0, i))
    {
      if i == pid {
        ProvenRow(v.payments[i], w.payments[i], e, e', e.payments[i], hours, first, RowAt(v0, i));
      } else {
        SameRow(v.payments[i], e, e', e.payments[i], first, RowAt(v0, i));
      }
    }
  }

  lemma ProvenRow(row: PaymentRow, row': PaymentRow, e: CoreFlowEscrow, e': CoreFlowEscrow, p: PaymentSchedule, hours: i128,
                  first: Option<Approver>, was: Option<PaymentRow>)
    requires RowMirrors(row, e, p, first, was) && p.status == Pending && hours * p.ratePerHour == p.amount
    requires !e.cancelled && !e.managerApproved && !e.financeApproved && !e'.cancelled && !e'.managerApproved && !e'.financeApproved
    requires row' == if row.state == AWAITING_ORACLE then row.(state := ORACLE_VERIFIED, hours := hours) else row
    ensures RowMirrors(row', e', p.(hoursLogged := hours, proofVerified := true), first, was)
  {
    ProvenState(e, e', p, hours, first);
    FiguresProven(row, row', p, p.(hoursLogged := hours, proofVerified := true));
    hide StateOf, Figures;
  }

  lemma SameRow(row: PaymentRow, e: CoreFlowEscrow, e': CoreFlowEscrow, p: PaymentSchedule, first: Option<Approver>, was: Option<PaymentRow>)
    requires RowMirrors(row, e, p, first, was)
    requires e'.cancelled == e.cancelled && e'.managerApproved == e.managerApproved && e'.financeApproved == e.financeApproved
    ensures RowMirrors(row, e', p, first, was)
  {
    SameState(e, e', p, first);
    hide StateOf, Figures;
  }

  lemma UniformProven(e: CoreFlowEscrow, first: Option<Approver>, pid: nat, hours: i128)
    requires Uniform(e, first) && pid < |e.payments| && !e.cancelled && !AllFinalized(e.payments)
    ensures Uniform(e.(payments := e.payments[pid := e.payments[pid].(hoursLogged := hours, proofVerified := true)]), first)
  {
    var rows := e.payments[pid := e.payments[pid].(hoursLogged := hours, proofVerified := true)];
    OpenRows(e.payments, rows);
    hide AllFinalized;
  }

  lemma AllPending(e: CoreFlowEscrow, first: Option<Approver>)
    requires Uniform(e, first) && !e.cancelled && !AllFinalized(e.payments)
    ensures forall i :: 0 <= i < |e.payments| ==> e.payments[i].status == Pending
  {
  }

  lemma FiguresProven(row: PaymentRow, row': PaymentRow, p: PaymentSchedule, p': PaymentSchedule)
    requires row' == row.(state := row'.state, hours := row'.hours) && TermsOf(p') == TermsOf(p)
    requires row'.hours == row.hours || row'.hours * p.ratePerHour == p.amount
    ensures Figures(row, p) ==> Figures(row', p')
  {
  }

  /** Before any approval a row awaits the oracle or is verified; with its proof it is verified. */
  lemma ProvenState(e: CoreFlowEscrow, e': CoreFlowEscrow, p: PaymentSchedule, hours: i128, first: Option<Approver>)
    requires p.status == Pending && !e.cancelled && !e.managerApproved && !e.financeApproved
    requires !e'.cancelled && !e'.managerApproved && !e'.financeApproved
    ensures StateOf(e, p, first) == AWAITING_ORACLE || StateOf(e, p, first) == ORACLE_VERIFIED
    ensures StateOf(e', p.(hoursLogged := hours, proofVerified := true), first) == ORACLE_VERIFIED
  {
  }

  lemma SameState(e: CoreFlowEscrow, e': CoreFlowEscrow, p: PaymentSchedule, first: Option<Approver>)
    requires e'.cancelled == e.cancelled && e'.managerApproved == e.managerApproved && e'.financeApproved == e.financeApproved
    ensures StateOf(e', p, first) == StateOf(e, p, first)
  {
  }

  lemma HoursFacts(v: View, ev: CoreFlowEvent)
    requires ev.HoursEvent? && ev.paymentIndex in v.payments
    ensures
      var w, slot := AcceptHours(v, ev).view, ev.paymentIndex;
      && w.escrow == v.escrow && w.findings == v.findings && slot in w.payments
      && w.payments == v.payments[slot := w.payments[slot]]
      && var before, after := v.payments[slot], w.payments[slot];
         && after == before.(state := after.state, hours := after.hours)
         && after.state == (if before.state == AWAITING_ORACLE then ORACLE_VERIFIED else before.state)
         && after.hours == if before.state == AWAITING_ORACLE then ev.hours else before.hours
  {
  }

  lemma SameAmountsTotal(rows: Rows, rows': Rows)
    requires |rows| == |rows'| && forall i :: 0 <= i < |rows| ==> rows'[i].amount == rows[i].amount
    ensures Total(rows') == Total(rows)
  {
    if rows != [] {
      SameAmountsTotal(rows[..|rows| - 1], rows'[..|rows| - 1]);
    }
  }

  /** Where one approval takes a payment. */
  function Advanced(state: PaymentState, byManager: bool): PaymentState {
    match state
    case ORACLE_VERIFIED => if byManager then AWAITING_FINANCE else AWAITING_MANAGER
    case AWAITING_MANAGER => if byManager then AWAITING_FINANCE else AWAITING_MANAGER
    case AWAITING_FINANCE => if byManager then AWAITING_FINANCE else READY_TO_SETTLE
    case _ => state
  }

  lemma ApprovedFacts(v: View, id: nat, byManager: bool)
    ensures
      var w := Approved(v, id, byManager).view;
      && w.escrow == (if byManager then v.escrow.(managerApproved := true) else v.escrow.(financeApproved := true))
      && w.findings == v.findings && w.payments.Keys == v.payments.Keys
      && forall i :: i in v.payments ==> w.payments[i] == v.payments[i].(state := Advanced(v.payments[i].state, byManager))
  {
    hide AuditEach, In;
  }

  lemma AdvancedState(e: CoreFlowEscrow, p: PaymentSchedule, first: Option<Approver>, byManager: bool)
    requires p.status == Pending && !e.cancelled && Uniform(e, first)
    requires if byManager then !e.managerApproved else !e.financeApproved
    ensures
      var e' := if byManager then e.(managerApproved := true) else e.(financeApproved := true);
      var first' := if first.Some? then first else if byManager then Some(ByManager) else Some(ByFinance);
      StateOf(e', p, first') == Advanced(StateOf(e, p, first), byManager)
  {
    match first {
      case None => assert !e.managerApproved && !e.financeApproved;
      case Some(a) => assert if a == ByManager then e.managerApproved else e.financeApproved;
    }
  }

  lemma ApproveMirrors(v0: View, v: View, id: nat, e: CoreFlowEscrow, first: Option<Approver>, byManager: bool)
    requires Mirrors(v0, v, id, e, first) && Uniform(e, first)
    requires !e.cancelled && !AllFinalized(e.payments)
    requires if byManager then !e.managerApproved else !e.financeApproved
    ensures
      var e' := if byManager then e.(managerApproved := true) else e.(financeApproved := true);
      var first' := if first.Some? then first else if byManager then Some(ByManager) else Some(ByFinance);
      Mirrors(v0, Approved(v, id, byManager).view, id, e', first') && Uniform(e', first')
  {
    var e' := if byManager then e.(managerApproved := true) else e.(financeApproved := true);
    var first' := if first.Some? then first else if byManager then Some(ByManager) else Some(ByFinance);
    hide Approved, StateOf, Advanced, Figures, Notes;
    var w := Approved(v, id, byManager).view;
    ApprovedFacts(v, id, byManager);
    forall i | 0 <= i < |e.payments| ensures RowMirrors(w.payments[i], e', e'.payments[i], first', RowAt(v0, i)) {
      assert RowMirrors(v.payments[i], e, e.payments[i], first, RowAt(v0, i));
      AdvancedState(e, e.payments[i], first, byManager);
      FiguresKept(v.payments[i], w.payments[i], e.payments[i], e.payments[i]);
    }
  }

  lemma RotateMirrors(v0: View, v: View, id: nat, e: CoreFlowEscrow, first: Option<Approver>, key: Bytes)
    requires Mirrors(v0, v, id, e, first) && Uniform(e, first)
    requires !e.cancelled && !AllFinalized(e.payments)
    ensures
      var e' := e.(oraclePubkey := key, oracleRotations := e.oracleRotations + 1, payments := Revoked(e.payments));
      && Mirrors(v0, Project(v, OracleRotatedEvent(id, e'.oracleRotations)).view, id, e', first) && Uniform(e', first)
  {
    hide Total, AllFinalized, FindingsFor, Revoked, Project, StateOf, Figures, RowMirrors, Uniform, Notes;
    var e' := e.(oraclePubkey := key, oracleRotations := e.oracleRotations + 1, payments := Revoked(e.payments));
    RevokedKeeps(v0, id, e.payments);
    UniformRevoked(e, first, key);
    PendingThroughout(e, first);
    NothingFound(id, e, first);
    NothingFound(id, e', first);
    RotatedFacts(v, id, e'.oracleRotations);
    var w := Project(v, OracleRotatedEvent(id, e'.oracleRotations)).view;
    forall i | 0 <= i < |e.payments| ensures RowMirrors(w.payments[i], e', e'.payments[i], first, RowAt(v0, i)) {
      RotatedRow(v.payments[i], w.payments[i], e, e', e.payments[i], first, RowAt(v0, i));
    }
  }

  lemma RevokedKeeps(v0: View, id: nat, rows: Rows)
    requires !AllFinalized(rows)
    ensures Total(Revoked(rows)) == Total(rows) && Notes(v0, id, Revoked(rows)) == Notes(v0, id, rows)
  {
    SameAmountsTotal(rows, Revoked(rows));
    OpenRows(rows, Revoked(rows));
    NotesStay(v0, id, rows, Revoked(rows));
    hide Notes, AllFinalized;
  }

  lemma PendingThroughout(e: CoreFlowEscrow, first: Option<Approver>)
    requires Uniform(e, first) && !e.cancelled && !AllFinalized(e.payments)
    ensures forall i :: 0 <= i < |e.payments| ==> e.payments[i].status == Pending && Revoked(e.payments)[i] == e.payments[i].(proofVerified := false)
  {
    AllPending(e, first);
    hide Uniform;
  }

  lemma UniformRevoked(e: CoreFlowEscrow, first: Option<Approver>, key: Bytes)
    requires Uniform(e, first) && !e.cancelled && !AllFinalized(e.payments)
    ensures
      var e' := e.(oraclePubkey := key, oracleRotations := e.oracleRotations + 1, payments := Revoked(e.payments));
      Uniform(e', first) && !AllFinalized(e'.payments)
  {
    OpenRows(e.payments, Revoked(e.payments));
    hide AllFinalized, Revoked;
  }

  lemma RotatedRow(row: PaymentRow, row': PaymentRow, e: CoreFlowEscrow, e': CoreFlowEscrow, p: PaymentSchedule, first: Option<Approver>, was: Option<PaymentRow>)
    requires RowMirrors(row, e, p, first, was) && p.status == Pending && !e.cancelled && !e'.cancelled
    requires row' == if row.state in REVOCABLE then row.(state := AWAITING_ORACLE) else row
    ensures RowMirrors(row', e', p.(proofVerified := false), first, was)
  {
    RotatedState(e, e', p, first);
    FiguresKept(row, row', p, p.(proofVerified := false));
    hide StateOf, Figures;
  }

  lemma RotatedFacts(v: View, id: nat, rotations: nat)
    ensures
      var w := Project(v, OracleRotatedEvent(id, rotations)).view;
      && w.escrow == v.escrow.(rotations := rotations) && w.findings == v.findings && w.payments.Keys == v.payments.Keys
      && forall i :: i in v.payments ==>
           w.payments[i] == if v.payments[i].state in REVOCABLE then v.payments[i].(state := AWAITING_ORACLE) else v.payments[i]
  {
    hide AddPayment, ObservePaid, CancelPayment, Summarised, Approved, AcceptHours;
  }

  /** An unpaid row of an open escrow is awaiting the oracle or in a revocable state; after a rotation it awaits it. */
  lemma RotatedState(e: CoreFlowEscrow, e': CoreFlowEscrow, p: PaymentSchedule, first: Option<Approver>)
    requires p.status == Pending && !e.cancelled && !e'.cancelled
    ensures StateOf(e, p, first) == AWAITING_ORACLE || StateOf(e, p, first) in REVOCABLE
    ensures StateOf(e', p.(proofVerified := false), first) == AWAITING_ORACLE
  {
  }

  // ----- settlement -----

  /** The state a row is in when its escrow may be paid, and after its paid event. */
  function Before(first: Option<Approver>): PaymentState {
    if first == Some(ByFinance) then AWAITING_FINANCE else READY_TO_SETTLE
  }

  function After(first: Option<Approver>): PaymentState {
    if first == Some(ByFinance) then AWAITING_FINANCE else PAID
  }

  lemma ComparedFacts(v: View, id: nat, slot: nat, p: PaymentSchedule)
    requires slot in v.payments
    ensures Compared(v, PaidEvent(id, slot, p)) == v.(findings := v.findings + PaidNote(RowAt(v, slot), id, slot, p))
  {
    var row := v.payments[slot];
    if row.amount != p.amount && row.recipient != p.worker {
      var one := multiset{Finding(id, Some(slot), AMOUNT_MISMATCH, Amount(row.amount), Amount(p.amount))};
      var other := multiset{Finding(id, Some(slot), RECIPIENT_MISMATCH, Payee(row.recipient), Payee(p.worker))};
      assert v.findings + (one + other) == v.findings + one + other;
    }
  }

  lemma PaidFacts(v: View, id: nat, slot: nat, p: PaymentSchedule, first: Option<Approver>)
    requires slot in v.payments && v.payments[slot].state == Before(first)
    ensures
      var w := ObservePaid(v, PaidEvent(id, slot, p)).view;
      && w.escrow == v.escrow
      && w.payments == v.payments[slot := v.payments[slot].(state := After(first))]
      && w.findings == v.findings + PaidNote(RowAt(v, slot), id, slot, p) + UnpaidNote(id, slot, first)
  {
    hide MayMove, Compared, PaidNote;
    ComparedFacts(v, id, slot, p);
    TableFacts(v.payments[slot]);
  }

  function UnpaidNote(id: nat, slot: nat, first: Option<Approver>): multiset<Finding> {
    if first == Some(ByFinance) then multiset{Finding(id, Some(slot), CHAIN_PAID_DB_NOT, Stands(AWAITING_FINANCE), Stands(PAID))} else multiset{}
  }

  /** From `v`, the first `n` rows have had their paid event and nothing else has changed. */
  ghost predicate PaidUpTo(v: View, w: View, id: nat, rows: Rows, n: nat, first: Option<Approver>)
    requires n <= |rows|
  {
    && w.escrow == v.escrow && w.payments.Keys == v.payments.Keys
    && (forall i :: i in v.payments ==>
          w.payments[i] == if i < n then v.payments[i].(state := After(first)) else v.payments[i])
    && w.findings == v.findings + PaidNotes(v, id, rows, n) + if first == Some(ByFinance) then UnpaidFindings(id, n) else multiset{}
  }

  /** Every slot has its row, waiting where a settlement finds it. */
  ghost predicate Payable(v: View, rows: Rows, first: Option<Approver>) {
    forall i :: 0 <= i < |rows| ==> i in v.payments && v.payments[i].state == Before(first)
  }

  lemma PayOneMore(v: View, w: View, id: nat, rows: Rows, n: nat, first: Option<Approver>)
    requires n < |rows| && Payable(v, rows, first) && PaidUpTo(v, w, id, rows, n, first)
    ensures PaidUpTo(v, ObservePaid(w, PaidEvent(id, n, rows[n])).view, id, rows, n + 1, first)
  {
    hide ObservePaid, PaidNote;
    PaidFacts(w, id, n, rows[n], first);
    assert RowAt(w, n) == RowAt(v, n);
  }

  lemma NonePaid(v: View, id: nat, rows: Rows, first: Option<Approver>)
    ensures PaidUpTo(v, Replayed(v, PaidEvents(id, rows[..0]), id), id, rows, 0, first)
  {
    assert PaidEvents(id, rows[..0]) == [];
  }

  lemma {:induction false} RowsPaid(v: View, id: nat, rows: Rows, n: nat, first: Option<Approver>)
    requires n <= |rows| && Payable(v, rows, first)
    ensures PaidUpTo(v, Replayed(v, PaidEvents(id, rows[..n]), id), id, rows, n, first)
  {
    hide *;
    if n == 0 {
      NonePaid(v, id, rows, first);
    } else {
      RowsPaid(v, id, rows, n - 1, first);
      PaidEventsSnoc(v, id, rows, n);
      PayOneMore(v, Replayed(v, PaidEvents(id, rows[..n - 1]), id), id, rows, n - 1, first);
    }
  }

  lemma SettledView(v: View, id: nat, rows: Rows)
    ensures
      Replayed(v, PaidEvents(id, rows) + [ContractEvent(Payment, Final, [Num(id), Num(Total(rows)), Num(|rows|)])], id)
      == Summarised(Replayed(v, PaidEvents(id, rows), id), FinalizedEvent(id, Total(rows), |rows|)).view
  {
    hide PaidEvents, Project, Summarised;
    var last, ev := ContractEvent(Payment, Final, [Num(id), Num(Total(rows)), Num(|rows|)]), FinalizedEvent(id, Total(rows), |rows|);
    ReplayedSnoc(v, PaidEvents(id, rows), last, id, ev);
    ProjectCases(Replayed(v, PaidEvents(id, rows), id), ev);
  }

  lemma PayMirrors(v0: View, v: View, id: nat, e: CoreFlowEscrow, first: Option<Approver>)
    requires Mirrors(v0, v, id, e, first) && Uniform(e, first)
    requires !e.cancelled && !AllFinalized(e.payments) && e.managerApproved && e.financeApproved
    requires forall i :: 0 <= i < |e.payments| ==> e.payments[i].proofVerified
    ensures
      var evs := PaidEvents(id, e.payments) + [ContractEvent(Payment, Final, [Num(id), Num(Total(e.payments)), Num(|e.payments|)])];
      var e' := e.(payments := WithStatus(e.payments, Finalized));
      Mirrors(v0, Replayed(v, evs, id), id, e', first) && Uniform(e', first)
  {
    hide Replayed, PaidEvents;
    var rows := e.payments;
    forall i | 0 <= i < |rows| ensures v.payments[i].state == Before(first) {
      assert RowMirrors(v.payments[i], e, rows[i], first, RowAt(v0, i));
    }
    assert Payable(v, rows, first);
    assert rows[..|rows|] == rows;
    RowsPaid(v, id, rows, |rows|, first);
    SettledView(v, id, rows);
    PaidIsMirrored(v0, v, Replayed(v, PaidEvents(id, rows), id), id, e, first);
  }

  lemma PaidIsMirrored(v0: View, v: View, paid: View, id: nat, e: CoreFlowEscrow, first: Option<Approver>)
    requires Mirrors(v0, v, id, e, first) && Uniform(e, first)
    requires !e.cancelled && !AllFinalized(e.payments) && e.managerApproved && e.financeApproved
    requires forall i :: 0 <= i < |e.payments| ==> e.payments[i].proofVerified
    requires Payable(v, e.payments, first) && PaidUpTo(v, paid, id, e.payments, |e.payments|, first)
    ensures
      var e' := e.(payments := WithStatus(e.payments, Finalized));
      Mirrors(v0, Summarised(paid, FinalizedEvent(id, Total(e.payments), |e.payments|)).view, id, e', first) && Uniform(e', first)
  {
    hide Total, WithStatus, UnpaidFindings, StateOf, Uniform, Payable, Summarised, Figures, RowMirrors, AllFinalized, Notes, PaidNotes;
    var rows, e' := e.payments, e.(payments := WithStatus(e.payments, Finalized));
    var ev := FinalizedEvent(id, Total(rows), |rows|);
    SameAmountsTotal(rows, e'.payments);
    UniformPaid(e, first);
    NothingFound(id, e, first);
    NotesStay(v0, id, rows, e'.payments);
    FiguresOfV(v0, v, id, e, first);
    assert 0 in v.payments && 0 in paid.payments;
    SummaryFacts(paid, ev, first);
    forall i | 0 <= i < |rows|
      ensures RowMirrors(Summarised(paid, ev).view.payments[i], e', e'.payments[i], first, RowAt(v0, i))
    {
      PaidRow(v.payments[i], e, e', rows[i], first, RowAt(v0, i));
    }
  }

  /** What settlement notes of the picture's rows is what it notes of the rows that were linked at the start. */
  lemma FiguresOfV(v0: View, v: View, id: nat, e: CoreFlowEscrow, first: Option<Approver>)
    requires Mirrors(v0, v, id, e, first)
    ensures PaidNotes(v, id, e.payments, |e.payments|) == PaidNotes(v0, id, e.payments, |e.payments|)
  {
    forall i | 0 <= i < |e.payments| ensures SameFigures(RowAt(v0, i), RowAt(v, i), e.payments[i]) {
      assert RowMirrors(v.payments[i], e, e.payments[i], first, RowAt(v0, i));
    }
    SameNotes(v0, v, id, e.payments, e.payments, |e.payments|);
  }

  lemma PaidRow(row: PaymentRow, e: CoreFlowEscrow, e': CoreFlowEscrow, p: PaymentSchedule, first: Option<Approver>, was: Option<PaymentRow>)
    requires RowMirrors(row, e, p, first, was) && !e'.cancelled
    ensures RowMirrors(row.(state := After(first)), e', p.(status := Finalized), first, was)
  {
    FinalizedState(e', p.(status := Finalized), first);
    FiguresKept(row, row.(state := After(first)), p, p.(status := Finalized));
    hide StateOf, Figures;
  }

  lemma FinalizedState(e: CoreFlowEscrow, p: PaymentSchedule, first: Option<Approver>)
    requires !e.cancelled && p.status == Finalized
    ensures StateOf(e, p, first) == After(first)
  {
  }

  lemma UniformPaid(e: CoreFlowEscrow, first: Option<Approver>)
    requires Uniform(e, first) && !e.cancelled && forall i :: 0 <= i < |e.payments| ==> e.payments[i].proofVerified
    ensures |e.payments| > 0 && Uniform(e.(payments := WithStatus(e.payments, Finalized)), first)
    ensures AllFinalized(WithStatus(e.payments, Finalized))
  {
    hide WithStatus;
  }

  /** The summary finds nothing when the rows were paid, and one disagreement when none could be. */
  lemma SummaryFacts(paid: View, ev: CoreFlowEvent, first: Option<Approver>)
    requires ev.FinalizedEvent? && 0 in paid.payments
    requires forall i :: i in paid.payments ==> paid.payments[i].state == After(first)
    ensures
      var w := Summarised(paid, ev).view;
      && w.payments == paid.payments && w.escrow == paid.escrow
      && w.findings == paid.findings
           + if first == Some(ByFinance) then multiset{Finding(ev.escrowId, None, CHAIN_PAID_DB_NOT, Nothing, SettledCount(ev.count))} else multiset{}
  {
    assert paid.payments[0].state == After(first);
  }

  // ----- cancellation -----

  lemma CancelFacts(v: View, ev: CoreFlowEvent)
    requires ev.PaymentCancelledEvent? && ev.paymentIndex in v.payments
    requires v.payments[ev.paymentIndex].state in {AWAITING_ORACLE, ORACLE_VERIFIED, AWAITING_MANAGER, AWAITING_FINANCE, READY_TO_SETTLE}
    ensures
      var w, slot := CancelPayment(v, ev).view, ev.paymentIndex;
      w.escrow == v.escrow && w.findings == v.findings && w.payments == v.payments[slot := v.payments[slot].(state := CANCELLED)]
  {
    hide MayMove;
    TableFacts(v.payments[ev.paymentIndex]);
  }

  const CANCELLABLE: set<PaymentState> := {AWAITING_ORACLE, ORACLE_VERIFIED, AWAITING_MANAGER, AWAITING_FINANCE, READY_TO_SETTLE}

  ghost predicate CancelledUpTo(v: View, w: View, n: nat) {
    && w.escrow == v.escrow && w.findings == v.findings && w.payments.Keys == v.payments.Keys
    && (forall i :: i in v.payments ==>
          w.payments[i] == if i < n then v.payments[i].(state := CANCELLED) else v.payments[i])
  }

  lemma CancelOneMore(v: View, w: View, n: nat, ev: CoreFlowEvent)
    requires CancelledUpTo(v, w, n) && n in v.payments && v.payments[n].state in CANCELLABLE
    requires ev.PaymentCancelledEvent? && ev.paymentIndex == n
    ensures CancelledUpTo(v, CancelPayment(w, ev).view, n + 1)
  {
    hide CancelPayment;
    CancelFacts(w, ev);
  }

  lemma NoneCancelled(v: View, id: nat)
    ensures CancelledUpTo(v, Replayed(v, CancelEvents(id, 0), id), 0)
  {
  }

  lemma {:induction false} RowsCancelled(v: View, id: nat, n: nat)
    requires forall i :: 0 <= i < n ==> i in v.payments && v.payments[i].state in CANCELLABLE
    ensures CancelledUpTo(v, Replayed(v, CancelEvents(id, n), id), n)
  {
    hide *;
    if n == 0 {
      NoneCancelled(v, id);
    } else {
      RowsCancelled(v, id, n - 1);
      CancelEventsSnoc(v, id, n);
      CancelOneMore(v, Replayed(v, CancelEvents(id, n - 1), id), n - 1, PaymentCancelledEvent(id, n - 1));
    }
  }

  lemma CancelledView(v: View, id: nat, n: nat)
    ensures
      var w := Replayed(v, CancelEvents(id, n), id);
      Replayed(v, CancelEvents(id, n) + [ContractEvent(EscrowSym, Cancel, [Num(id)])], id)
      == w.(escrow := w.escrow.(cancelled := true))
  {
    hide CancelEvents, Project;
    var last := ContractEvent(EscrowSym, Cancel, [Num(id)]);
    ReplayedSnoc(v, CancelEvents(id, n), last, id, CancelledEvent(id));
    ProjectCases(Replayed(v, CancelEvents(id, n), id), CancelledEvent(id));
  }

  lemma CancelMirrors(v0: View, v: View, id: nat, e: CoreFlowEscrow, first: Option<Approver>)
    requires Mirrors(v0, v, id, e, first) && Uniform(e, first)
    requires !e.cancelled && !AllFinalized(e.payments)
    ensures
      var evs := CancelEvents(id, |e.payments|) + [ContractEvent(EscrowSym, Cancel, [Num(id)])];
      var e' := e.(cancelled := true, payments := WithStatus(e.payments, Cancelled));
      Mirrors(v0, Replayed(v, evs, id), id, e', first) && Uniform(e', first)
  {
    hide Replayed, CancelEvents;
    var rows := e.payments;
    forall i | 0 <= i < |rows| ensures v.payments[i].state in CANCELLABLE {
      assert RowMirrors(v.payments[i], e, rows[i], first, RowAt(v0, i));
    }
    RowsCancelled(v, id, |rows|);
    CancelledView(v, id, |rows|);
    CancelledIsMirrored(v0, v, Replayed(v, CancelEvents(id, |rows|), id), id, e, first);
  }

  lemma CancelledIsMirrored(v0: View, v: View, w: View, id: nat, e: CoreFlowEscrow, first: Option<Approver>)
    requires Mirrors(v0, v, id, e, first) && Uniform(e, first)
    requires !e.cancelled && !AllFinalized(e.payments) && CancelledUpTo(v, w, |e.payments|)
    ensures
      var e' := e.(cancelled := true, payments := WithStatus(e.payments, Cancelled));
      Mirrors(v0, w.(escrow := w.escrow.(cancelled := true)), id, e', first) && Uniform(e', first)
  {
    hide Total, WithStatus, UnpaidFindings, StateOf, Uniform, Figures, RowMirrors, AllFinalized, FindingsFor, Notes;
    var rows, e' := e.payments, e.(cancelled := true, payments := WithStatus(e.payments, Cancelled));
    SameAmountsTotal(rows, e'.payments);
    UniformCancelled(e, first);
    NothingFound(id, e, first);
    NothingFound(id, e', first);
    NotesStay(v0, id, rows, e'.payments);
    forall i | 0 <= i < |rows|
      ensures RowMirrors(w.payments[i], e', e'.payments[i], first, RowAt(v0, i))
    {
      CancelledRow(v.payments[i], e, e', rows[i], first, RowAt(v0, i));
    }
  }

  lemma CancelledRow(row: PaymentRow, e: CoreFlowEscrow, e': CoreFlowEscrow, p: PaymentSchedule, first: Option<Approver>, was: Option<PaymentRow>)
    requires RowMirrors(row, e, p, first, was) && e'.cancelled
    ensures RowMirrors(row.(state := CANCELLED), e', p.(status := Cancelled), first, was)
  {
    CancelledState(e', p.(status := Cancelled), first);
    FiguresKept(row, row.(state := CANCELLED), p, p.(status := Cancelled));
    hide StateOf, Figures;
  }

  lemma CancelledState(e: CoreFlowEscrow, p: PaymentSchedule, first: Option<Approver>)
    requires e.cancelled
    ensures StateOf(e, p, first) == CANCELLED
  {
  }

  lemma UniformCancelled(e: CoreFlowEscrow, first: Option<Approver>)
    requires Uniform(e, first) && !e.cancelled
    ensures Uniform(e.(cancelled := true, payments := WithStatus(e.payments, Cancelled)), first)
    ensures !AllFinalized(WithStatus(e.payments, Cancelled))
  {
    hide WithStatus;
    assert WithStatus(e.payments, Cancelled)[0].status == Cancelled;
  }

  // ----- one call -----

  /** The picture after the whole log so far is exact. */
  ghost predicate Tracks(v0: View, s: Chain, id: nat) {
    && id in s.escrows
    && Mirrors(v0, Replayed(v0, s.log, id), id, s.escrows[id], FirstApprover(s.log, id))
    && Uniform(s.escrows[id], FirstApprover(s.log, id))
  }

  /** Before the escrow exists the log says nothing of it. */
  ghost predicate Untouched(v0: View, s: Chain, id: nat) {
    id !in s.escrows && Replayed(v0, s.log, id) == v0 && FirstApprover(s.log, id) == None
  }

  lemma QuietKeeps(v0: View, s: Chain, s': Chain, b: seq<ContractEvent>, id: nat)
    requires s'.log == s.log + b && (forall e :: e in b ==> !Mentions(e, id))
    requires (id in s'.escrows <==> id in s.escrows) && (id in s.escrows ==> s'.escrows[id] == s.escrows[id])
    ensures Tracks(v0, s, id) ==> Tracks(v0, s', id)
    ensures Untouched(v0, s, id) ==> Untouched(v0, s', id)
  {
    hide Mirrors, Uniform, Replayed, FirstApprover, Mentions;
    ReplayedSplit(v0, s.log, b, id);
    Unmentioned(Replayed(v0, s.log, id), s.log, b, id);
  }

  lemma AdminEventUnread(topic0: Symbol, topic1: Symbol, data: seq<Val>, id: nat)
    requires data != [] && !data[0].Num?
    ensures !Mentions(ContractEvent(topic0, topic1, data), id)
  {
  }

  lemma AdministerLog(h: Host, inv: Invocation, s: Chain, op: AdminOp) returns (b: seq<ContractEvent>)
    ensures Administer(h, inv, s, op).1.log == s.log + b && forall e :: e in b ==> e.data != [] && !e.data[0].Num?
  {
    var s' := Administer(h, inv, s, op).1;
    if s'.log == s.log {
      b := [];
    } else {
      b := [s'.log[|s.log|]];
    }
  }

  /** Administration emits events the projection does not read, token transfers none. */
  lemma OtherCallsLog(h: Host, s: Chain, st: Step, id: nat) returns (b: seq<ContractEvent>)
    requires !st.call.OnEscrow()
    ensures Do(h, s, st).1.log == s.log + b && forall e :: e in b ==> !Mentions(e, id)
  {
    hide Transfer, Administer, Mentions;
    if st.call.AdminCall? {
      b := AdministerLog(h, st.inv, s, st.call.op);
      forall e | e in b ensures !Mentions(e, id) {
        AdminEventUnread(e.topic0, e.topic1, e.data, id);
      }
    } else {
      b := [];
    }
  }

  // What each kind of successful call writes and emits.

  lemma InitializeEmits(h: Host, inv: Invocation, s: Chain, m: Address, f: Address, key: Bytes, rows: Rows)
    requires Initialize(h, inv, s, m, f, key, rows).Ok?
    ensures CheckRows(rows).Ok? && |rows| > 0
    ensures Initialize(h, inv, s, m, f, key, rows).value.escrow == NewEscrow(m, f, key, rows)
    ensures
      var id := s.escrowCount + 1;
      Initialize(h, inv, s, m, f, key, rows).value.events
      == CreationEvents(id, m, CheckRows(rows).value, rows)
  {
    hide CheckRows, ShiftAllowed, Shift, CreationEvents, OracleAccepted;
  }

  lemma TotalChecked(rows: Rows)
    ensures CheckRows(rows).Ok? ==> CheckRows(rows).value == Total(rows)
  {
    CheckRowsPasses(rows);
  }

  lemma RotateEmits(inv: Invocation, s: Chain, id: nat, key: Bytes)
    requires RotateOracleKey(inv, s, id, key).Ok?
    ensures
      && id in s.escrows && !s.escrows[id].cancelled
      && var e, eff := s.escrows[id], RotateOracleKey(inv, s, id, key).value;
      && eff.escrow == e.(oraclePubkey := key, oracleRotations := e.oracleRotations + 1, payments := Revoked(e.payments))
      && eff.events == [ContractEvent(Oracle, Rotate, [Num(id), Num(e.oracleRotations + 1)])]
  {
  }

  lemma SubmitEmits(h: Host, inv: Invocation, s: Chain, id: u32, pid: u32, hours: i128, nonce: u64, sig: Bytes)
    requires SubmitHoursProof(h, inv, s, id, pid, hours, nonce, sig).Ok?
    ensures
      && id in s.escrows && pid < |s.escrows[id].payments|
      && var e, eff := s.escrows[id], SubmitHoursProof(h, inv, s, id, pid, hours, nonce, sig).value;
      && !e.managerApproved && !e.financeApproved && !e.cancelled
      && hours * e.payments[pid].ratePerHour == e.payments[pid].amount
      && eff.escrow == e.(payments := e.payments[pid := e.payments[pid].(hoursLogged := hours, proofVerified := true)])
      && eff.events == [ContractEvent(Hours, Submit, [Num(id), Num(pid), Num(hours)])]
  {
    hide OracleMessage.ProofMessage;
  }

  lemma ApproveEmits(inv: Invocation, s: Chain, id: nat)
    ensures ManagerApprove(inv, s, id).Ok? ==>
      && id in s.escrows && !s.escrows[id].managerApproved && !s.escrows[id].cancelled
      && var eff := ManagerApprove(inv, s, id).value;
      && eff.escrow == s.escrows[id].(managerApproved := true)
      && eff.events == [ContractEvent(Approve, Manager, [Num(id)])]
    ensures FinanceApprove(inv, s, id).Ok? ==>
      && id in s.escrows && !s.escrows[id].financeApproved && !s.escrows[id].cancelled
      && var eff := FinanceApprove(inv, s, id).value;
      && eff.escrow == s.escrows[id].(financeApproved := true)
      && eff.events == [ContractEvent(Approve, Finance, [Num(id)])]
  {
  }

  lemma PayEmits(h: Host, inv: Invocation, s: Chain, id: nat)
    requires PayBatch(h, inv, s, id).Ok?
    ensures
      && id in s.escrows
      && var e := s.escrows[id];
      && PayBatch(h, inv, s, id).value.events
         == PaidEvents(id, e.payments) + [ContractEvent(Payment, Final, [Num(id), Num(Total(e.payments)), Num(|e.payments|)])]
  {
    hide PayRows, PayGuard, Total, PaidEvents;
  }

  lemma CancelEmits(h: Host, inv: Invocation, s: Chain, id: nat)
    requires CancelEscrow(h, inv, s, id).Ok?
    ensures
      && id in s.escrows
      && CancelEscrow(h, inv, s, id).value.events
         == CancelEvents(id, |s.escrows[id].payments|) + [ContractEvent(EscrowSym, Cancel, [Num(id)])]
  {
    hide Shift, ShiftAllowed, CancelEvents;
  }

  /** No event here names the escrow. */
  ghost predicate Elsewhere(evs: seq<ContractEvent>, id: nat) {
    forall e :: e in evs ==> !Mentions(e, id)
  }

  lemma RowEventsElsewhere(other: nat, manager: Address, rows: Rows, id: nat)
    requires other != id
    ensures Elsewhere(CreationEvents(other, manager, Total(rows), rows), id)
  {
    hide RowEvents, Total;
    RowEventsParse(other, rows);
  }

  lemma PaidEventsElsewhere(other: nat, rows: Rows, id: nat)
    requires other != id
    ensures Elsewhere(PaidEvents(other, rows) + [ContractEvent(Payment, Final, [Num(other), Num(Total(rows)), Num(|rows|)])], id)
  {
    hide PaidEvents, Total;
    PaidEventsParse(other, rows);
  }

  lemma CancelEventsElsewhere(other: nat, n: nat, id: nat)
    requires other != id
    ensures Elsewhere(CancelEvents(other, n) + [ContractEvent(EscrowSym, Cancel, [Num(other)])], id)
  {
    hide CancelEvents;
    CancelEventsParse(other, n);
  }

  lemma OneElsewhere(e: ContractEvent, id: nat)
    requires NatAt(e.data, 0) && e.data[0].n != id
    ensures Elsewhere([e], id)
  {
  }

  /** Every event of a successful call names the escrow the call is on. */
  lemma EventsNameTarget(h: Host, s: Chain, st: Step, id: nat)
    requires Structured(h, s)
    requires st.call.OnEscrow() && EffectOf(h, s, st).Ok? && EffectOf(h, s, st).value.id != id
    ensures Elsewhere(EffectOf(h, s, st).value.events, id)
  {
    FourKinds(h, s, st);
    hide Initialize, RotateOracleKey, SubmitHoursProof, ManagerApprove, FinanceApprove, PayBatch, CancelEscrow;
    hide Creates, Advances, Settles, Refunds, RowEvents, PaidEvents, CancelEvents, Elsewhere, Structured, Total;
    var eff := EffectOf(h, s, st).value;
    match st.call {
      case InitializeCall(m, f, key, rows) =>
        InitializeEmits(h, st.inv, s, m, f, key, rows);
        TotalChecked(rows);
        RowEventsElsewhere(eff.id, m, rows, id);
      case PayCall(n) =>
        PayEmits(h, st.inv, s, n);
        PaidEventsElsewhere(n, s.escrows[n].payments, id);
      case CancelCall(n) =>
        CancelEmits(h, st.inv, s, n);
        CancelEventsElsewhere(n, |s.escrows[n].payments|, id);
      case RotateCall(n, key) => RotateEmits(st.inv, s, n, key); OneElsewhere(eff.events[0], id);
      case SubmitCall(n, pid, hours, nonce, sig) =>
        SubmitEmits(h, st.inv, s, n, pid, hours, nonce, sig);
        OneElsewhere(eff.events[0], id);
      case ManagerApproveCall(n) => ApproveEmits(st.inv, s, n); OneElsewhere(eff.events[0], id);
      case FinanceApproveCall(n) => ApproveEmits(st.inv, s, n); OneElsewhere(eff.events[0], id);
    }
  }

  /** The log with one more entry that names the escrow. */
  lemma AppendKnown(v0: View, log: seq<ContractEvent>, e: ContractEvent, id: nat, ev: CoreFlowEvent)
    requires ParseEvent(e) == Some(ev) && ev.escrowId == id
    ensures Replayed(v0, log + [e], id) == Project(Replayed(v0, log, id), ev).view
    ensures
      FirstApprover(log + [e], id)
      == var before := FirstApprover(log, id);
         if before.Some? then before
         else if ev.ManagerApprovedEvent? then Some(ByManager)
         else if ev.FinanceApprovedEvent? then Some(ByFinance)
         else None
  {
    ReplayedSnoc(v0, log, e, id, ev);
    hide ParseEvent, Project;
    assert (log + [e])[..|log|] == log;
  }

  lemma CommitTracks(v0: View, s: Chain, eff: Effect, id: nat)
    requires eff.id == id
    requires Mirrors(v0, Replayed(v0, s.log + eff.events, id), id, eff.escrow, FirstApprover(s.log + eff.events, id))
    requires Uniform(eff.escrow, FirstApprover(s.log + eff.events, id))
    ensures Tracks(v0, Commit(s, Ok(eff)), id)
  {
    hide Mirrors, Uniform, Replayed, FirstApprover;
  }

  lemma RotateTracks(v0: View, s: Chain, eff: Effect, id: nat, key: Bytes)
    requires Tracks(v0, s, id) && !Closed(s.escrows[id]) && eff.id == id
    requires
      var e := s.escrows[id];
      && eff.escrow == e.(oraclePubkey := key, oracleRotations := e.oracleRotations + 1, payments := Revoked(e.payments))
      && eff.events == [ContractEvent(Oracle, Rotate, [Num(id), Num(e.oracleRotations + 1)])]
    ensures Tracks(v0, Commit(s, Ok(eff)), id)
  {
    hide Mirrors, Uniform, Replayed, FirstApprover, Project, Revoked, Commit;
    var e := s.escrows[id];
    AppendKnown(v0, s.log, eff.events[0], id, OracleRotatedEvent(id, e.oracleRotations + 1));
    RotateMirrors(v0, Replayed(v0, s.log, id), id, e, FirstApprover(s.log, id), key);
    CommitTracks(v0, s, eff, id);
  }

  lemma SubmitTracks(v0: View, s: Chain, eff: Effect, id: nat, pid: nat, hours: i128)
    requires Tracks(v0, s, id) && !Closed(s.escrows[id]) && eff.id == id
    requires
      var e := s.escrows[id];
      && !e.managerApproved && !e.financeApproved && pid < |e.payments|
      && hours * e.payments[pid].ratePerHour == e.payments[pid].amount
      && eff.escrow == e.(payments := e.payments[pid := e.payments[pid].(hoursLogged := hours, proofVerified := true)])
      && eff.events == [ContractEvent(Hours, Submit, [Num(id), Num(pid), Num(hours)])]
    ensures Tracks(v0, Commit(s, Ok(eff)), id)
  {
    hide Mirrors, Uniform, Replayed, FirstApprover, Project, AcceptHours, Commit;
    var ev := HoursEvent(id, pid, hours);
    AppendKnown(v0, s.log, eff.events[0], id, ev);
    ProjectCases(Replayed(v0, s.log, id), ev);
    SubmitMirrors(v0, Replayed(v0, s.log, id), id, s.escrows[id], FirstApprover(s.log, id), pid, hours);
    CommitTracks(v0, s, eff, id);
  }

  lemma ApproveTracks(v0: View, s: Chain, eff: Effect, id: nat, byManager: bool)
    requires Tracks(v0, s, id) && !Closed(s.escrows[id]) && eff.id == id
    requires
      var e := s.escrows[id];
      && (if byManager then !e.managerApproved else !e.financeApproved)
      && eff.escrow == (if byManager then e.(managerApproved := true) else e.(financeApproved := true))
      && eff.events == [ContractEvent(Approve, if byManager then Manager else Finance, [Num(id)])]
    ensures Tracks(v0, Commit(s, Ok(eff)), id)
  {
    hide Mirrors, Uniform, Replayed, FirstApprover, Project, Approved, Commit;
    var ev := if byManager then ManagerApprovedEvent(id) else FinanceApprovedEvent(id);
    AppendKnown(v0, s.log, eff.events[0], id, ev);
    ProjectCases(Replayed(v0, s.log, id), ev);
    ApproveMirrors(v0, Replayed(v0, s.log, id), id, s.escrows[id], FirstApprover(s.log, id), byManager);
    CommitTracks(v0, s, eff, id);
  }

  lemma PaidEventsNoApproval(log: seq<ContractEvent>, id: nat, rows: Rows)
    ensures
      FirstApprover(log + (PaidEvents(id, rows) + [ContractEvent(Payment, Final, [Num(id), Num(Total(rows)), Num(|rows|)])]), id)
      == FirstApprover(log, id)
  {
    hide PaidEvents, Total;
    PaidEventsParse(id, rows);
    NoApprovals(log, PaidEvents(id, rows) + [ContractEvent(Payment, Final, [Num(id), Num(Total(rows)), Num(|rows|)])], id);
  }

  lemma CancelEventsNoApproval(log: seq<ContractEvent>, id: nat, n: nat)
    ensures
      FirstApprover(log + (CancelEvents(id, n) + [ContractEvent(EscrowSym, Cancel, [Num(id)])]), id) == FirstApprover(log, id)
  {
    hide CancelEvents;
    CancelEventsParse(id, n);
    NoApprovals(log, CancelEvents(id, n) + [ContractEvent(EscrowSym, Cancel, [Num(id)])], id);
  }

  lemma PayTracks(v0: View, s: Chain, eff: Effect, id: nat)
    requires Tracks(v0, s, id) && !Closed(s.escrows[id]) && eff.id == id
    requires
      var e := s.escrows[id];
      && e.managerApproved && e.financeApproved && (forall i :: 0 <= i < |e.payments| ==> e.payments[i].proofVerified)
      && eff.escrow == e.(payments := WithStatus(e.payments, Finalized))
      && eff.events == PaidEvents(id, e.payments) + [ContractEvent(Payment, Final, [Num(id), Num(Total(e.payments)), Num(|e.payments|)])]
    ensures Tracks(v0, Commit(s, Ok(eff)), id)
  {
    hide Mirrors, Uniform, Replayed, FirstApprover, PaidEvents, Total, WithStatus, Commit;
    var e := s.escrows[id];
    PaidEventsNoApproval(s.log, id, e.payments);
    ReplayedSplit(v0, s.log, eff.events, id);
    PayMirrors(v0, Replayed(v0, s.log, id), id, e, FirstApprover(s.log, id));
    CommitTracks(v0, s, eff, id);
  }

  lemma CancelTracks(v0: View, s: Chain, eff: Effect, id: nat)
    requires Tracks(v0, s, id) && !Closed(s.escrows[id]) && eff.id == id
    requires
      var e := s.escrows[id];
      && eff.escrow == e.(cancelled := true, payments := WithStatus(e.payments, Cancelled))
      && eff.events == CancelEvents(id, |e.payments|) + [ContractEvent(EscrowSym, Cancel, [Num(id)])]
    ensures Tracks(v0, Commit(s, Ok(eff)), id)
  {
    hide Mirrors, Uniform, Replayed, FirstApprover, CancelEvents, WithStatus, Commit;
    var e := s.escrows[id];
    CancelEventsNoApproval(s.log, id, |e.payments|);
    ReplayedSplit(v0, s.log, eff.events, id);
    CancelMirrors(v0, Replayed(v0, s.log, id), id, e, FirstApprover(s.log, id));
    CommitTracks(v0, s, eff, id);
  }

  lemma CreateTracks(v0: View, s: Chain, eff: Effect, id: nat)
    requires Untouched(v0, s, id) && Unobserved(v0) && eff.id == id && Prelinked(v0, eff.escrow.payments)
    requires
      var e := eff.escrow;
      && |e.payments| > 0 && e == NewEscrow(e.manager, e.financeApprover, e.oraclePubkey, e.payments)
      && (forall k :: 0 <= k < |e.payments| ==> e.payments[k].status == Pending && !e.payments[k].proofVerified && GoodRow(e.payments[k]))
      && eff.events == CreationEvents(id, e.manager, Total(e.payments), e.payments)
    ensures Tracks(v0, Commit(s, Ok(eff)), id)
  {
    hide Mirrors, Uniform, Replayed, FirstApprover, CreationEvents, Total, Commit, Unobserved, Prelinked;
    var e := eff.escrow;
    CreationIsNoApproval(s.log, id, e.manager, e.payments);
    ReplayedSplit(v0, s.log, eff.events, id);
    CreateMirrors(v0, id, e);
    CommitTracks(v0, s, eff, id);
  }

  /** A successful call on this escrow keeps the picture exact. */
  lemma TargetTracks(h: Host, v0: View, s: Chain, st: Step)
    requires Structured(h, s) && st.call.OnEscrow() && EffectOf(h, s, st).Ok? && RowsEnterPending(st)
    requires
      if st.call.InitializeCall?
      then Untouched(v0, s, Target(s, st.call)) && Unobserved(v0) && Prelinked(v0, st.call.rows)
      else Tracks(v0, s, Target(s, st.call))
    ensures Tracks(v0, Commit(s, EffectOf(h, s, st)), Target(s, st.call))
  {
    FourKinds(h, s, st);
    hide Structured, Tracks, Untouched, Commit, Unobserved, Prelinked, Revoked, WithStatus, Total, Closed, CreationEvents, PaidEvents, CancelEvents;
    hide Initialize, RotateOracleKey, SubmitHoursProof, ManagerApprove, FinanceApprove, PayBatch, CancelEscrow;
    var id, eff := Target(s, st.call), EffectOf(h, s, st).value;
    TracksStored(v0, s, id);
    match st.call {
      case InitializeCall(m, f, key, rows) =>
        InitializeEmits(h, st.inv, s, m, f, key, rows);
        TotalChecked(rows);
        CreateTracks(v0, s, eff, id);
      case RotateCall(_, key) =>
        RotateEmits(st.inv, s, id, key);
        RotateTracks(v0, s, eff, id, key);
      case SubmitCall(_, pid, hours, nonce, sig) =>
        SubmitEmits(h, st.inv, s, id, pid, hours, nonce, sig);
        SubmitTracks(v0, s, eff, id, pid, hours);
      case ManagerApproveCall(_) =>
        ApproveEmits(st.inv, s, id);
        ApproveTracks(v0, s, eff, id, true);
      case FinanceApproveCall(_) =>
        ApproveEmits(st.inv, s, id);
        ApproveTracks(v0, s, eff, id, false);
      case PayCall(_) =>
        PayEmits(h, st.inv, s, id);
        PayTracks(v0, s, eff, id);
      case CancelCall(_) =>
        CancelEmits(h, st.inv, s, id);
        CancelTracks(v0, s, eff, id);
    }
  }

  lemma TracksStored(v0: View, s: Chain, id: nat)
    ensures Tracks(v0, s, id) ==> id in s.escrows
  {
  }

  // ----- whole runs -----

  lemma SameTermsPrelinked(v0: View, rows: Rows, rows': Rows)
    requires SameTerms(rows, rows') && Prelinked(v0, rows')
    ensures Prelinked(v0, rows)
  {
  }

  /** One step of a run, whatever it is and whichever escrow it is on. */
  lemma StepRefines(h: Host, v0: View, s: Chain, st: Step, id: nat)
    requires Structured(h, s) && EntersUnpaid(st) && Unobserved(v0)
    requires st.call.InitializeCall? && Do(h, s, st).0 && s.escrowCount + 1 == id ==> RowsEnterPending(st)
    requires Tracks(v0, s, id) || Untouched(v0, s, id)
    requires var s' := Do(h, s, st).1; id in s'.escrows ==> Prelinked(v0, s'.escrows[id].payments)
    ensures var s' := Do(h, s, st).1; if id in s'.escrows then Tracks(v0, s', id) else Untouched(v0, s', id)
  {
    hide Structured, Tracks, Untouched, Unobserved, Prelinked, RowsEnterPending, EntersUnpaid, EffectOf;
    TracksOrNot(v0, s, id);
    var s' := Do(h, s, st).1;
    if !st.call.OnEscrow() {
      OtherCallsKeep(h, s, st);
      var b := OtherCallsLog(h, s, st, id);
      hide Do;
      QuietKeeps(v0, s, s', b, id);
    } else {
      OnEscrowStep(h, s, st);
      hide Do;
      if EffectOf(h, s, st).Ok? {
        FourKinds(h, s, st);
        var eff := EffectOf(h, s, st).value;
        if eff.id == id {
          CreatesNew(h, s, st, id);
          EntersAsAsked(s, st, id);
          hide Creates, Advances, Settles, Refunds;
          TargetTracks(h, v0, s, st);
        } else {
          EventsNameTarget(h, s, st, id);
          QuietKeeps(v0, s, s', eff.events, id);
        }
      }
    }
    TracksOrNot(v0, s', id);
  }

  lemma TracksOrNot(v0: View, s: Chain, id: nat)
    ensures Tracks(v0, s, id) ==> id in s.escrows
    ensures Untouched(v0, s, id) ==> id !in s.escrows
  {
  }

  lemma EntersAsAsked(s: Chain, st: Step, id: nat)
    requires st.call.OnEscrow() && Target(s, st.call) == id
    requires st.call.InitializeCall? && s.escrowCount + 1 == id ==> RowsEnterPending(st)
    ensures RowsEnterPending(st)
  {
  }

  lemma CreatesNew(h: Host, s: Chain, st: Step, id: nat)
    requires Structured(h, s) && st.call.OnEscrow() && EffectOf(h, s, st).Ok? && EffectOf(h, s, st).value.id == id
    ensures Target(s, st.call) == id && (st.call.InitializeCall? <==> id !in s.escrows)
    ensures st.call.InitializeCall? ==> Commit(s, EffectOf(h, s, st)).escrows[id].payments == st.call.rows
  {
    FourKinds(h, s, st);
    hide EffectOf;
  }

  /**
   * Over any run of the contract, the database's picture of a claimed escrow is exactly the function of the chain's
   * escrow that `Mirrors` states; before the escrow exists the picture is untouched.
   */
  lemma {:induction false} ProjectionRefines(h: Host, bal: Balances, tr: Trace, id: nat, v0: View)
    requires Admissible(h, tr) && EntersPending(h, Genesis(bal), tr, id) && Unobserved(v0)
    requires var s := Run(h, Genesis(bal), tr); id in s.escrows ==> Prelinked(v0, s.escrows[id].payments)
    ensures var s := Run(h, Genesis(bal), tr); if id in s.escrows then Tracks(v0, s, id) else Untouched(v0, s, id)
  {
    hide Do, Tracks, Unobserved, Prelinked;
    if tr == [] {
      assert Replayed(v0, [], id) == v0;
    } else {
      var front, last := tr[..|tr| - 1], tr[|tr| - 1];
      var s := Run(h, Genesis(bal), front);
      RunStructured(h, bal, front);
      StepEnters(h, Genesis(bal), tr, id);
      if id in s.escrows {
        StepEvolves(h, s, last, id);
        SameTermsPrelinked(v0, s.escrows[id].payments, Run(h, Genesis(bal), tr).escrows[id].payments);
      }
      hide Untouched, Structured;
      ProjectionRefines(h, bal, front, id, v0);
      StepRefines(h, v0, s, last, id);
    }
  }

  lemma StepEnters(h: Host, s0: Chain, tr: Trace, id: nat)
    requires EntersPending(h, s0, tr, id) && tr != []
    ensures
      var front, last := tr[..|tr| - 1], tr[|tr| - 1];
      && EntersPending(h, s0, front, id)
      && (last.call.InitializeCall? && Do(h, Run(h, s0, front), last).0 && Run(h, s0, front).escrowCount + 1 == id
          ==> RowsEnterPending(last))
  {
    hide Do, Run, RowsEnterPending;
    var front := tr[..|tr| - 1];
    forall i | 0 <= i < |front| && Founds(h, s0, front, i, id) ensures RowsEnterPending(front[i]) {
      assert front[..i] == tr[..i];
      assert Founds(h, s0, tr, i, id);
    }
    if tr[|tr| - 1].call.InitializeCall? && Do(h, Run(h, s0, front), tr[|tr| - 1]).0 && Run(h, s0, front).escrowCount + 1 == id {
      assert Founds(h, s0, tr, |tr| - 1, id);
    }
  }
}
