/**
 * Payments the application had linked before the chain's events came, whatever they say and whatever state they are in:
 * the projection never changes their figures, and it notes every disagreement with the chain once, with both sides.
 */
module Disagreements {
  import opened Prelude
  import opened Escrow
  import opened ContractRuns
  import opened StateMachine
  import opened Events
  import opened Projection
  import opened Refinement

  predicate AboutFigures(g: Finding) {
    g.kind == AMOUNT_MISMATCH || g.kind == RECIPIENT_MISMATCH
  }

  /** The same payment but for its state and hours. */
  predicate SamePayment(row: PaymentRow, row': PaymentRow) {
    row' == row.(state := row'.state, hours := row'.hours)
  }

  /** The same payments, and nothing new said about figures. */
  ghost predicate KeepsFigures(v: View, w: View) {
    && w.payments.Keys == v.payments.Keys
    && (forall i :: i in v.payments ==> SamePayment(v.payments[i], w.payments[i]))
    && (forall g: Finding :: AboutFigures(g) ==> w.findings[g] == v.findings[g])
  }

  lemma QuietStates(v: View, w: View)
    requires w.payments.Keys == v.payments.Keys && w.findings == v.findings
    requires forall i :: i in v.payments ==> w.payments[i] == v.payments[i].(state := w.payments[i].state, hours := w.payments[i].hours)
    ensures KeepsFigures(v, w)
  {
  }

  lemma QuietHours(v: View, ev: CoreFlowEvent)
    requires ev.HoursEvent?
    ensures KeepsFigures(v, AcceptHours(v, ev).view)
  {
    if ev.paymentIndex in v.payments {
      HoursFacts(v, ev);
      hide AcceptHours;
      QuietStates(v, AcceptHours(v, ev).view);
    }
  }

  lemma QuietApproval(v: View, id: nat, byManager: bool)
    ensures KeepsFigures(v, Approved(v, id, byManager).view)
  {
    ApprovedFacts(v, id, byManager);
    hide Approved, Advanced;
    QuietStates(v, Approved(v, id, byManager).view);
  }

  lemma QuietCancellation(v: View, ev: CoreFlowEvent)
    requires ev.PaymentCancelledEvent?
    ensures KeepsFigures(v, CancelPayment(v, ev).view)
  {
    hide MayMove;
  }

  lemma QuietRotation(v: View, id: nat, rotations: nat)
    ensures KeepsFigures(v, Project(v, OracleRotatedEvent(id, rotations)).view)
  {
    RotatedFacts(v, id, rotations);
    hide Project;
    QuietStates(v, Project(v, OracleRotatedEvent(id, rotations)).view);
  }

  lemma QuietEvent(v: View, ev: CoreFlowEvent)
    requires !ev.PaymentAddedEvent? && !ev.PaymentPaidEvent?
    ensures KeepsFigures(v, Project(v, ev).view)
  {
    ProjectCases(v, ev);
    hide AcceptHours, Approved, CancelPayment, Summarised, KeepsFigures;
    match ev {
      case HoursEvent(_, _, _) => QuietHours(v, ev);
      case ManagerApprovedEvent(id) => QuietApproval(v, id, true);
      case FinanceApprovedEvent(id) => QuietApproval(v, id, false);
      case PaymentCancelledEvent(_, _) => QuietCancellation(v, ev);
      case FinalizedEvent(_, _, _) => SummaryKeeps(v, ev);
      case OracleRotatedEvent(id, n) => QuietRotation(v, id, n);
      case CreatedEvent(_, _, _) => SameFindings(v, Project(v, ev).view);
      case CancelledEvent(_) => SameFindings(v, Project(v, ev).view);
    }
  }

  lemma SameFindings(v: View, w: View)
    requires w.payments == v.payments && w.findings == v.findings
    ensures KeepsFigures(v, w)
  {
  }

  lemma KeepsTrans(u: View, v: View, w: View)
    requires KeepsFigures(u, v) && KeepsFigures(v, w)
    ensures KeepsFigures(u, w)
  {
  }

  /** An entry that adds or pays no slot of this escrow. */
  predicate Quiet(e: ContractEvent, id: nat) {
    var ev := ParseEvent(e);
    ev.Some? && ev.value.escrowId == id ==> !ev.value.PaymentAddedEvent? && !ev.value.PaymentPaidEvent?
  }

  lemma {:induction false} QuietLog(v: View, log: seq<ContractEvent>, id: nat)
    requires forall e :: e in log ==> Quiet(e, id)
    ensures KeepsFigures(v, Replayed(v, log, id))
  {
    hide Project, ParseEvent, KeepsFigures;
    if log == [] {
      ItselfKept(v);
    } else {
      var n := |log| - 1;
      QuietLog(v, log[..n], id);
      var before, ev := Replayed(v, log[..n], id), ParseEvent(log[n]);
      assert log[n] in log;
      if ev.Some? && ev.value.escrowId == id {
        QuietEvent(before, ev.value);
        KeepsTrans(v, before, Project(before, ev.value).view);
      }
    }
  }

  lemma ItselfKept(v: View)
    ensures KeepsFigures(v, v)
  {
  }

  // ----- creation -----

  /** From `v`, whose payments may be in any state, the first `n` slots have been added. */
  ghost predicate AddedTo(v: View, w: View, id: nat, rows: Rows, n: nat)
    requires n <= |rows|
  {
    && (forall i :: i in w.payments <==> i in v.payments || 0 <= i < n)
    && (forall i :: i in v.payments ==> SamePayment(v.payments[i], w.payments[i]))
    && (forall i :: 0 <= i < n && i !in v.payments ==> w.payments[i].recipient == rows[i].worker && w.payments[i].amount == rows[i].amount)
    && (forall g: Finding :: AboutFigures(g) ==> w.findings[g] == v.findings[g] + AddedNotes(v, id, rows, n)[g])
  }

  lemma AddsAny(v: View, id: nat, slot: nat, p: PaymentSchedule)
    ensures
      var w := AddPayment(v, AddedEvent(id, slot, p)).view;
      && w.payments.Keys == v.payments.Keys + {slot} && w.findings == v.findings + AddedNote(RowAt(v, slot), id, slot, p)
      && (forall i :: i in v.payments ==> SamePayment(v.payments[i], w.payments[i]))
      && (slot !in v.payments ==> w.payments[slot].recipient == p.worker && w.payments[slot].amount == p.amount)
  {
    forall i | i in v.payments ensures SamePayment(v.payments[i], AddPayment(v, AddedEvent(id, slot, p)).view.payments[i]) {
      AddsRow(v, id, slot, p, i);
    }
    hide MayMove, Quotient, Milliseconds, SamePayment;
  }

  lemma AddsRow(v: View, id: nat, slot: nat, p: PaymentSchedule, i: nat)
    requires i in v.payments
    ensures
      var w := AddPayment(v, AddedEvent(id, slot, p)).view;
      i in w.payments && SamePayment(v.payments[i], w.payments[i])
  {
    hide MayMove, Quotient, Milliseconds;
  }

  lemma SameRow(row: PaymentRow, mid: PaymentRow, last: PaymentRow)
    requires SamePayment(row, mid) && SamePayment(mid, last)
    ensures SamePayment(row, last) && last.recipient == row.recipient && last.amount == row.amount
  {
  }

  lemma AddOne(v: View, w: View, id: nat, rows: Rows, n: nat)
    requires n < |rows| && AddedTo(v, w, id, rows, n)
    ensures AddedTo(v, AddPayment(w, AddedEvent(id, n, rows[n])).view, id, rows, n + 1)
  {
    hide AddPayment, AddedNote, SamePayment, SameFigures;
    var w' := AddPayment(w, AddedEvent(id, n, rows[n])).view;
    AddsAny(w, id, n, rows[n]);
    assert SameFigures(RowAt(v, n), RowAt(w, n), rows[n]) by {
      if n in v.payments { SameRow(v.payments[n], w.payments[n], w'.payments[n]); }
      AlikeFigures(v, w, rows, n);
    }
    SameNote(RowAt(v, n), RowAt(w, n), id, n, rows[n], rows[n]);
    forall i | i in v.payments ensures i in w'.payments && SamePayment(v.payments[i], w'.payments[i]) {
      SameRow(v.payments[i], w.payments[i], w'.payments[i]);
    }
    forall i | 0 <= i < n + 1 && i !in v.payments
      ensures i in w'.payments && w'.payments[i].recipient == rows[i].worker && w'.payments[i].amount == rows[i].amount
    {
      if i < n { SameRow(w.payments[i], w.payments[i], w'.payments[i]) by { Reflexive(w.payments[i]); } }
    }
  }

  lemma Reflexive(row: PaymentRow)
    ensures SamePayment(row, row)
  {
  }

  lemma AlikeFigures(v: View, w: View, rows: Rows, n: nat)
    requires n < |rows| && (n in w.payments <==> n in v.payments) && (n in v.payments ==> SamePayment(v.payments[n], w.payments[n]))
    ensures SameFigures(RowAt(v, n), RowAt(w, n), rows[n])
  {
  }

  lemma NoneAddedTo(v: View, id: nat, rows: Rows)
    ensures AddedTo(v, Replayed(v, RowEvents(id, rows[..0]), id), id, rows, 0)
  {
    assert RowEvents(id, rows[..0]) == [];
  }

  lemma {:induction false} AllAddedTo(v: View, id: nat, rows: Rows, n: nat)
    requires n <= |rows|
    ensures AddedTo(v, Replayed(v, RowEvents(id, rows[..n]), id), id, rows, n)
  {
    hide *;
    if n == 0 {
      NoneAddedTo(v, id, rows);
    } else {
      AllAddedTo(v, id, rows, n - 1);
      RowEventsSnoc(v, id, rows, n);
      AddOne(v, Replayed(v, RowEvents(id, rows[..n - 1]), id), id, rows, n - 1);
    }
  }

  // ----- settlement -----

  /** From `v`, the first `n` slots have had their paid event. */
  ghost predicate PaidTo(v: View, w: View, id: nat, rows: Rows, n: nat)
    requires n <= |rows|
  {
    && w.payments.Keys == v.payments.Keys
    && (forall i :: i in v.payments ==> SamePayment(v.payments[i], w.payments[i]))
    && (forall g: Finding :: AboutFigures(g) ==> w.findings[g] == v.findings[g] + PaidNotes(v, id, rows, n)[g])
  }

  /** What a settlement says beyond the figures: that the payment could not be marked PAID. */
  function NotMarked(v: View, id: nat, slot: nat): Finding
    requires slot in v.payments
  {
    Finding(id, Some(slot), CHAIN_PAID_DB_NOT, Stands(v.payments[slot].state), Stands(PAID))
  }

  lemma PaysCases(v: View, id: nat, slot: nat, p: PaymentSchedule)
    requires slot in v.payments
    ensures
      var ev := PaidEvent(id, slot, p);
      var w, noted := ObservePaid(v, ev).view, Compared(v, ev).findings;
      && w.payments.Keys == v.payments.Keys
      && (w.findings == noted || w.findings == noted + multiset{NotMarked(v, id, slot)})
  {
    hide MayMove, Compared;
  }

  lemma PaysAny(v: View, id: nat, slot: nat, p: PaymentSchedule)
    requires slot in v.payments
    ensures
      var w := ObservePaid(v, PaidEvent(id, slot, p)).view;
      && w.payments.Keys == v.payments.Keys
      && (forall i :: i in v.payments ==> SamePayment(v.payments[i], w.payments[i]))
      && (forall g: Finding :: AboutFigures(g) ==> w.findings[g] == v.findings[g] + PaidNote(RowAt(v, slot), id, slot, p)[g])
  {
    hide ObservePaid, PaidNote, SamePayment, Compared;
    PaysCases(v, id, slot, p);
    ComparedFacts(v, id, slot, p);
    forall i | i in v.payments ensures SamePayment(v.payments[i], ObservePaid(v, PaidEvent(id, slot, p)).view.payments[i]) {
      PaysRow(v, id, slot, p, i);
    }
  }

  lemma PaysRow(v: View, id: nat, slot: nat, p: PaymentSchedule, i: nat)
    requires slot in v.payments && i in v.payments
    ensures
      var w := ObservePaid(v, PaidEvent(id, slot, p)).view;
      i in w.payments && SamePayment(v.payments[i], w.payments[i])
  {
    hide MayMove, Compared;
  }

  lemma PayOne(v: View, w: View, id: nat, rows: Rows, n: nat)
    requires n < |rows| && n in v.payments && PaidTo(v, w, id, rows, n)
    ensures PaidTo(v, ObservePaid(w, PaidEvent(id, n, rows[n])).view, id, rows, n + 1)
  {
    hide ObservePaid, PaidNote, SamePayment, SameFigures;
    var w' := ObservePaid(w, PaidEvent(id, n, rows[n])).view;
    PaysAny(w, id, n, rows[n]);
    AlikeFigures(v, w, rows, n);
    SameNote(RowAt(v, n), RowAt(w, n), id, n, rows[n], rows[n]);
    forall i | i in v.payments ensures i in w'.payments && SamePayment(v.payments[i], w'.payments[i]) {
      SameRow(v.payments[i], w.payments[i], w'.payments[i]);
    }
  }

  lemma NonePaidTo(v: View, id: nat, rows: Rows)
    ensures PaidTo(v, Replayed(v, PaidEvents(id, rows[..0]), id), id, rows, 0)
  {
    assert PaidEvents(id, rows[..0]) == [];
  }

  lemma {:induction false} AllPaidTo(v: View, id: nat, rows: Rows, n: nat)
    requires n <= |rows| && forall i :: 0 <= i < |rows| ==> i in v.payments
    ensures PaidTo(v, Replayed(v, PaidEvents(id, rows[..n]), id), id, rows, n)
  {
    hide *;
    if n == 0 {
      NonePaidTo(v, id, rows);
    } else {
      AllPaidTo(v, id, rows, n - 1);
      PaidEventsSnoc(v, id, rows, n);
      PayOne(v, Replayed(v, PaidEvents(id, rows[..n - 1]), id), id, rows, n - 1);
    }
  }

  // ----- the picture against the linked payments, over a run -----

  /** Linked payments are as they were, the other slots have the chain's payee and amount, and every disagreement is noted. */
  ghost predicate Faithful(v0: View, v: View, id: nat, rows: Rows) {
    && (forall i :: i in v.payments <==> i in v0.payments || 0 <= i < |rows|)
    && (forall i :: i in v0.payments ==> SamePayment(v0.payments[i], v.payments[i]))
    && (forall i :: 0 <= i < |rows| && i !in v0.payments ==> v.payments[i].recipient == rows[i].worker && v.payments[i].amount == rows[i].amount)
    && (forall g: Finding :: AboutFigures(g) ==> v.findings[g] == v0.findings[g] + Notes(v0, id, rows)[g])
  }

  ghost predicate Told(v0: View, s: Chain, id: nat) {
    var v := Replayed(v0, s.log, id);
    if id in s.escrows then Faithful(v0, v, id, s.escrows[id].payments) else v == v0
  }

  /** A quiet step keeps it, so long as the escrow's rows keep their terms and are not settled. */
  lemma QuietKeepsTold(v0: View, s: Chain, s': Chain, b: seq<ContractEvent>, id: nat)
    requires id in s.escrows && id in s'.escrows && Told(v0, s, id) && s'.log == s.log + b && forall e :: e in b ==> Quiet(e, id)
    requires SameTerms(s.escrows[id].payments, s'.escrows[id].payments)
    requires AllFinalized(s'.escrows[id].payments) == AllFinalized(s.escrows[id].payments)
    ensures Told(v0, s', id)
  {
    hide Replayed, ParseEvent, AddedNotes, PaidNotes, AllFinalized;
    ReplayedSplit(v0, s.log, b, id);
    var v := Replayed(v0, s.log, id);
    QuietLog(v, b, id);
    var rows, rows' := s.escrows[id].payments, s'.escrows[id].payments;
    SelfSame(v0, rows);
    SameNotes(v0, v0, id, rows, rows', |rows|);
    forall i | 0 <= i < |rows| ensures rows'[i].worker == rows[i].worker && rows'[i].amount == rows[i].amount {
      assert TermsOf(rows'[i]) == TermsOf(rows[i]);
    }
  }

  lemma SelfSame(v: View, rows: Rows)
    ensures forall i :: 0 <= i < |rows| ==> SameFigures(RowAt(v, i), RowAt(v, i), rows[i])
  {
  }

  lemma CreationTells(v0: View, s: Chain, eff: Effect, id: nat)
    requires id !in s.escrows && Told(v0, s, id) && eff.id == id && !AllFinalized(eff.escrow.payments)
    requires eff.events == CreationEvents(id, eff.escrow.manager, Total(eff.escrow.payments), eff.escrow.payments)
    ensures Told(v0, Commit(s, Ok(eff)), id)
  {
    hide Replayed, CreationEvents, AddedNotes, PaidNotes, AllFinalized, Total;
    var rows := eff.escrow.payments;
    var v1 := v0.(escrow := v0.escrow.(manager := eff.escrow.manager, total := Total(rows)), batch := true);
    ReplayedSplit(v0, s.log, eff.events, id);
    CreatedView(v0, id, eff.escrow.manager, rows);
    assert rows[..|rows|] == rows;
    AllAddedTo(v1, id, rows, |rows|);
    SameRowsSameNotes(v0, v1, id, rows);
  }

  lemma SettlementTells(v0: View, s: Chain, eff: Effect, id: nat)
    requires id in s.escrows && Told(v0, s, id) && eff.id == id && !AllFinalized(s.escrows[id].payments)
    requires
      var rows := s.escrows[id].payments;
      && eff.escrow.payments == WithStatus(rows, Finalized)
      && eff.events == PaidEvents(id, rows) + [ContractEvent(Payment, Final, [Num(id), Num(Total(rows)), Num(|rows|)])]
    ensures Told(v0, Commit(s, Ok(eff)), id)
  {
    hide Replayed, PaidEvents, AddedNotes, PaidNotes, Total, Summarised, Notes, Faithful, KeepsFigures, PaidTo;
    var rows, v := s.escrows[id].payments, Replayed(v0, s.log, id);
    ReplayedSplit(v0, s.log, eff.events, id);
    SettledView(v, id, rows);
    assert rows[..|rows|] == rows;
    EverySlotThere(v0, v, id, rows);
    AllPaidTo(v, id, rows, |rows|);
    var paid := Replayed(v, PaidEvents(id, rows), id);
    SummaryKeeps(paid, FinalizedEvent(id, Total(rows), |rows|));
    PaidIsFaithful(v0, v, paid, Summarised(paid, FinalizedEvent(id, Total(rows), |rows|)).view, id, rows);
  }

  lemma EverySlotThere(v0: View, v: View, id: nat, rows: Rows)
    requires Faithful(v0, v, id, rows)
    ensures forall i :: 0 <= i < |rows| ==> i in v.payments
  {
  }

  lemma PaidIsFaithful(v0: View, v: View, paid: View, w: View, id: nat, rows: Rows)
    requires Faithful(v0, v, id, rows) && PaidTo(v, paid, id, rows, |rows|) && KeepsFigures(paid, w) && !AllFinalized(rows)
    ensures Faithful(v0, w, id, WithStatus(rows, Finalized))
  {
    hide AddedNotes, PaidNotes, SameFigures, Notes, SamePayment;
    forall i | 0 <= i < |rows| ensures SameFigures(RowAt(v0, i), RowAt(v, i), rows[i]) {
      FigureAlike(v0, v, id, rows, i);
    }
    SameNotes(v0, v, id, rows, rows, |rows|);
    NotesStay(v0, id, rows, WithStatus(rows, Finalized));
    NowFinalized(rows);
    forall i | i in v.payments ensures i in w.payments && SamePayment(v.payments[i], w.payments[i]) {
      SameRow(v.payments[i], paid.payments[i], w.payments[i]);
    }
    forall i | i in v0.payments ensures i in w.payments && SamePayment(v0.payments[i], w.payments[i]) {
      SameRow(v0.payments[i], v.payments[i], w.payments[i]);
    }
    forall i | 0 <= i < |rows| && i !in v0.payments
      ensures i in w.payments && w.payments[i].recipient == rows[i].worker && w.payments[i].amount == rows[i].amount
    {
      SameRow(v.payments[i], paid.payments[i], w.payments[i]);
    }
  }

  lemma NowFinalized(rows: Rows)
    ensures AllFinalized(WithStatus(rows, Finalized))
  {
  }

  lemma SummaryKeeps(v: View, ev: CoreFlowEvent)
    requires ev.FinalizedEvent?
    ensures KeepsFigures(v, Summarised(v, ev).view)
  {
  }

  lemma FigureAlike(v0: View, v: View, id: nat, rows: Rows, i: nat)
    requires Faithful(v0, v, id, rows) && i < |rows|
    ensures SameFigures(RowAt(v0, i), RowAt(v, i), rows[i])
  {
    hide Notes;
  }

  /** What a call on the escrow, other than its creation and its settlement, logs. */
  lemma QuietCall(h: Host, s: Chain, st: Step)
    requires Structured(h, s) && st.call.OnEscrow() && EffectOf(h, s, st).Ok? && !st.call.InitializeCall? && !st.call.PayCall?
    ensures forall e :: e in EffectOf(h, s, st).value.events ==> Quiet(e, Target(s, st.call))
  {
    hide Initialize, RotateOracleKey, SubmitHoursProof, ManagerApprove, FinanceApprove, PayBatch, CancelEscrow, Quiet;
    hide CancelEvents, Structured, Total;
    match st.call {
      case CancelCall(n) =>
        CancelEmits(h, st.inv, s, n);
        CancellationIsQuiet(n, |s.escrows[n].payments|);
      case RotateCall(n, key) => RotateEmits(st.inv, s, n, key); NeitherIsQuiet(n);
      case SubmitCall(n, pid, hours, nonce, sig) => SubmitEmits(h, st.inv, s, n, pid, hours, nonce, sig); NeitherIsQuiet(n);
      case ManagerApproveCall(n) => ApproveEmits(st.inv, s, n); NeitherIsQuiet(n);
      case FinanceApproveCall(n) => ApproveEmits(st.inv, s, n); NeitherIsQuiet(n);
    }
  }

  lemma NeitherIsQuiet(id: nat)
    ensures forall e: ContractEvent :: e.topic0 != Payment ==> Quiet(e, id)
  {
  }

  lemma CancellationIsQuiet(id: nat, n: nat)
    ensures forall e :: e in CancelEvents(id, n) + [ContractEvent(EscrowSym, Cancel, [Num(id)])] ==> Quiet(e, id)
  {
    hide CancelEvents;
    CancelEventsParse(id, n);
  }

  lemma ElsewhereTells(v0: View, s: Chain, s': Chain, b: seq<ContractEvent>, id: nat)
    requires Told(v0, s, id) && s'.log == s.log + b && forall e :: e in b ==> !Mentions(e, id)
    requires (id in s'.escrows <==> id in s.escrows) && (id in s.escrows ==> s'.escrows[id] == s.escrows[id])
    ensures Told(v0, s', id)
  {
    hide Replayed, Faithful, Mentions;
    ReplayedSplit(v0, s.log, b, id);
    Unmentioned(Replayed(v0, s.log, id), s.log, b, id);
  }

  lemma TargetTells(h: Host, v0: View, s: Chain, st: Step)
    requires Structured(h, s) && st.call.OnEscrow() && EffectOf(h, s, st).Ok? && EntersUnpaid(st)
    requires Told(v0, s, Target(s, st.call))
    ensures Told(v0, Commit(s, EffectOf(h, s, st)), Target(s, st.call))
  {
    hide Told, CreationEvents, PaidEvents, Total, Initialize, RotateOracleKey, SubmitHoursProof, ManagerApprove, FinanceApprove, PayBatch, CancelEscrow;
    FourKinds(h, s, st);
    EffectGood(h, s, st);
    var id, eff := Target(s, st.call), EffectOf(h, s, st).value;
    match st.call {
      case InitializeCall(m, f, key, rows) =>
        InitializeEmits(h, st.inv, s, m, f, key, rows);
        TotalChecked(rows);
        CreationTells(v0, s, eff, id);
      case PayCall(_) =>
        PayEmits(h, st.inv, s, id);
        SettlementTells(v0, s, eff, id);
      case _ =>
        QuietCall(h, s, st);
        StillUnsettled(h, s, st);
        QuietKeepsTold(v0, s, Commit(s, Ok(eff)), eff.events, id);
    }
  }

  lemma StillUnsettled(h: Host, s: Chain, st: Step)
    requires Structured(h, s) && st.call.OnEscrow() && EffectOf(h, s, st).Ok? && EntersUnpaid(st)
    requires !st.call.InitializeCall? && !st.call.PayCall?
    ensures
      var id, eff := Target(s, st.call), EffectOf(h, s, st).value;
      && id in s.escrows && eff.id == id && SameTerms(s.escrows[id].payments, eff.escrow.payments)
      && !AllFinalized(s.escrows[id].payments) && !AllFinalized(eff.escrow.payments)
  {
    FourKinds(h, s, st);
    EffectGood(h, s, st);
    hide EffectOf;
    if st.call.CancelCall? {
      var rows := EffectOf(h, s, st).value.escrow.payments;
      assert rows[0].status == Cancelled;
    }
  }

  lemma StepTells(h: Host, v0: View, s: Chain, st: Step, id: nat)
    requires Structured(h, s) && EntersUnpaid(st) && Told(v0, s, id)
    ensures Told(v0, Do(h, s, st).1, id)
  {
    hide Told, Structured, EffectOf, EntersUnpaid;
    var s' := Do(h, s, st).1;
    if !st.call.OnEscrow() {
      OtherCallsKeep(h, s, st);
      var b := OtherCallsLog(h, s, st, id);
      hide Do;
      ElsewhereTells(v0, s, s', b, id);
    } else {
      OnEscrowStep(h, s, st);
      hide Do;
      if EffectOf(h, s, st).Ok? {
        FourKinds(h, s, st);
        if Target(s, st.call) == id {
          TargetTells(h, v0, s, st);
        } else {
          EventsNameTarget(h, s, st, id);
          ElsewhereTells(v0, s, s', EffectOf(h, s, st).value.events, id);
        }
      }
    }
  }

  lemma {:induction false} RunTells(h: Host, bal: Balances, tr: Trace, id: nat, v0: View)
    requires Admissible(h, tr)
    ensures Told(v0, Run(h, Genesis(bal), tr), id)
  {
    hide Do;
    if tr == [] {
      assert Replayed(v0, [], id) == v0;
    } else {
      hide Told, Structured, Run, EntersUnpaid;
      var n := |tr| - 1;
      RunTells(h, bal, tr[..n], id, v0);
      RunStructured(h, bal, tr[..n]);
      RunExtend(h, Genesis(bal), tr, n);
      assert tr[..n + 1] == tr;
      StepTells(h, v0, Run(h, Genesis(bal), tr[..n]), tr[n], id);
    }
  }

  // ----- what is noted, slot by slot -----

  lemma {:induction false} NotesBySlot(v: View, id: nat, rows: Rows, n: nat, g: Finding)
    requires n <= |rows|
    ensures
      var there := g.slot.Some? && g.slot.value < n;
      && AddedNotes(v, id, rows, n)[g] == (if there then AddedNote(RowAt(v, g.slot.value), id, g.slot.value, rows[g.slot.value])[g] else 0)
      && PaidNotes(v, id, rows, n)[g] == (if there then PaidNote(RowAt(v, g.slot.value), id, g.slot.value, rows[g.slot.value])[g] else 0)
  {
    hide AddedNote, PaidNote, RowAt;
    if n > 0 {
      NotesBySlot(v, id, rows, n - 1, g);
      OwnSlotOnly(RowAt(v, n - 1), id, n - 1, rows[n - 1], g);
    }
  }

  lemma OwnSlotOnly(was: Option<PaymentRow>, id: nat, i: nat, p: PaymentSchedule, g: Finding)
    ensures g.slot != Some(i) ==> AddedNote(was, id, i, p)[g] == 0 && PaidNote(was, id, i, p)[g] == 0
  {
  }

  /** When the slot was added: payee and amount of both sides. */
  function Added(id: nat, i: nat, row: PaymentRow, p: PaymentSchedule): Finding {
    Finding(id, Some(i), AMOUNT_MISMATCH, PayeeAmount(row.recipient, row.amount), PayeeAmount(p.worker, p.amount))
  }

  function SettledAmount(id: nat, i: nat, row: PaymentRow, p: PaymentSchedule): Finding {
    Finding(id, Some(i), AMOUNT_MISMATCH, Amount(row.amount), Amount(p.amount))
  }

  function SettledPayee(id: nat, i: nat, row: PaymentRow, p: PaymentSchedule): Finding {
    Finding(id, Some(i), RECIPIENT_MISMATCH, Payee(row.recipient), Payee(p.worker))
  }

  function Count(condition: bool): nat {
    if condition then 1 else 0
  }

  /** How often each finding about a linked payment's figures has been opened. */
  ghost predicate NotedExactly(v0: View, v: View, id: nat, i: nat, row: PaymentRow, p: PaymentSchedule, settled: bool) {
    && v.findings[Added(id, i, row, p)] == v0.findings[Added(id, i, row, p)] + Count(row.recipient != p.worker || row.amount != p.amount)
    && v.findings[SettledAmount(id, i, row, p)] == v0.findings[SettledAmount(id, i, row, p)] + Count(settled && row.amount != p.amount)
    && v.findings[SettledPayee(id, i, row, p)] == v0.findings[SettledPayee(id, i, row, p)] + Count(settled && row.recipient != p.worker)
  }

  lemma NoteCounts(was: Option<PaymentRow>, id: nat, i: nat, p: PaymentSchedule)
    ensures was.Some? ==>
      var row := was.value;
      var a, b, c := Added(id, i, row, p), SettledAmount(id, i, row, p), SettledPayee(id, i, row, p);
      && AddedNote(was, id, i, p)[a] == Count(row.recipient != p.worker || row.amount != p.amount)
      && AddedNote(was, id, i, p)[b] == AddedNote(was, id, i, p)[c] == 0
      && PaidNote(was, id, i, p)[a] == 0
      && PaidNote(was, id, i, p)[b] == Count(row.amount != p.amount) && PaidNote(was, id, i, p)[c] == Count(row.recipient != p.worker)
  {
  }

  lemma OnlyThose(was: Option<PaymentRow>, id: nat, i: nat, p: PaymentSchedule, g: Finding)
    requires AddedNote(was, id, i, p)[g] + PaidNote(was, id, i, p)[g] > 0
    ensures was.Some? && g in {Added(id, i, was.value, p), SettledAmount(id, i, was.value, p), SettledPayee(id, i, was.value, p)}
  {
  }

  /**
   * Over any run of the contract, for an escrow whose payments the application had linked beforehand with any figures, in
   * any states: each linked payment keeps its payee, amount, asset, rate and period; a finding with both sides is opened
   * when its slot is added if and only if payee or amount differ, and further ones when it is settled if and only if the
   * amount, or the payee, does; each once. Nothing else is ever said about figures.
   */
  lemma DisagreementsExactly(h: Host, bal: Balances, tr: Trace, id: nat, v0: View, i: nat)
    requires Admissible(h, tr) && id in Run(h, Genesis(bal), tr).escrows
    ensures
      var s := Run(h, Genesis(bal), tr);
      var rows, v := s.escrows[id].payments, Replayed(v0, s.log, id);
      && (i in v0.payments ==> i in v.payments && SamePayment(v0.payments[i], v.payments[i]))
      && (i in v0.payments && i < |rows| ==> NotedExactly(v0, v, id, i, v0.payments[i], rows[i], AllFinalized(rows)))
  {
    hide Run, Replayed, AllFinalized, AddedNotes, PaidNotes, AddedNote, PaidNote;
    RunTells(h, bal, tr, id, v0);
    var s := Run(h, Genesis(bal), tr);
    var rows := s.escrows[id].payments;
    if i in v0.payments && i < |rows| {
      var row, p := v0.payments[i], rows[i];
      NoteCounts(RowAt(v0, i), id, i, p);
      NotesBySlot(v0, id, rows, |rows|, Added(id, i, row, p));
      NotesBySlot(v0, id, rows, |rows|, SettledAmount(id, i, row, p));
      NotesBySlot(v0, id, rows, |rows|, SettledPayee(id, i, row, p));
    }
  }

  /** And no finding about figures is opened but these. */
  lemma NothingElseIsSaid(h: Host, bal: Balances, tr: Trace, id: nat, v0: View, g: Finding)
    requires Admissible(h, tr) && id in Run(h, Genesis(bal), tr).escrows && AboutFigures(g)
    requires
      var s := Run(h, Genesis(bal), tr);
      Replayed(v0, s.log, id).findings[g] > v0.findings[g]
    ensures
      var rows := Run(h, Genesis(bal), tr).escrows[id].payments;
      && g.slot.Some? && g.slot.value in v0.payments && g.slot.value < |rows|
      && var i := g.slot.value;
      g in {Added(id, i, v0.payments[i], rows[i]), SettledAmount(id, i, v0.payments[i], rows[i]), SettledPayee(id, i, v0.payments[i], rows[i])}
  {
    hide Run, Replayed, AllFinalized, AddedNotes, PaidNotes, AddedNote, PaidNote;
    RunTells(h, bal, tr, id, v0);
    var rows := Run(h, Genesis(bal), tr).escrows[id].payments;
    NotesBySlot(v0, id, rows, |rows|, g);
    OnlyThose(RowAt(v0, g.slot.value), id, g.slot.value, rows[g.slot.value], g);
  }
}
