/**
 * The mirror end to end: from any run of the contract, through any batching, reordering, crashes and late claiming of
 * its event log, to what the database says of each payment.
 */
module MirrorRuns {
  import opened Prelude
  import opened Escrow
  import opened ContractRuns
  import opened StateMachine
  import opened Events
  import opened Projection
  import opened Ingestion
  import opened Backlog
  import opened Refinement
  import Disagreements

  const VERIFIED_OR_LATER: set<PaymentState> :=
    {ORACLE_VERIFIED, AWAITING_MANAGER, AWAITING_FINANCE, READY_TO_SETTLE, PAID}

  lemma FinalizedNotCancelled(e: CoreFlowEscrow, first: Option<Approver>, i: nat)
    requires Uniform(e, first) && i < |e.payments|
    ensures e.payments[i].status == Finalized ==> !e.cancelled && AllFinalized(e.payments)
    ensures e.managerApproved ==> first == Some(ByManager) || first == Some(ByFinance)
  {
    match first {
      case None =>
      case Some(a) => assert a == ByManager || a == ByFinance;
    }
  }

  /** However the approvals were ordered, a payment the database calls PAID is finalized on-chain. */
  lemma PaidOnlyIfFinalized(v0: View, s: Chain, id: nat, i: nat)
    requires Tracks(v0, s, id) && i in Replayed(v0, s.log, id).payments
    ensures
      var e := s.escrows[id];
      && i < |e.payments|
      && (Replayed(v0, s.log, id).payments[i].state == PAID ==> e.payments[i].status == Finalized)
  {
    hide Replayed, FirstApprover;
    var e := s.escrows[id];
    assert RowMirrors(Replayed(v0, s.log, id).payments[i], e, e.payments[i], FirstApprover(s.log, id), RowAt(v0, i));
  }

  /**
   * Unless finance approved first, the mirror is faithful row by row: PAID exactly when finalized, CANCELLED exactly
   * when cancelled, verified or later exactly when the contract holds a proof, and the only findings opened are of linked
   * payments whose figures disagree with their slots.
   */
  lemma FaithfulUnlessFinanceFirst(v0: View, s: Chain, id: nat, i: nat)
    requires Tracks(v0, s, id) && FirstApprover(s.log, id) != Some(ByFinance) && i < |s.escrows[id].payments|
    ensures
      var e, v := s.escrows[id], Replayed(v0, s.log, id);
      && i in v.payments
      && (v.payments[i].state == PAID <==> e.payments[i].status == Finalized)
      && (v.payments[i].state == CANCELLED <==> e.cancelled)
      && (!e.cancelled ==> (v.payments[i].state in VERIFIED_OR_LATER <==> e.payments[i].proofVerified))
      && v.findings == v0.findings + Notes(v0, id, e.payments)
  {
    hide Replayed, FirstApprover;
    var e := s.escrows[id];
    assert RowMirrors(Replayed(v0, s.log, id).payments[i], e, e.payments[i], FirstApprover(s.log, id), RowAt(v0, i));
    FinalizedNotCancelled(e, FirstApprover(s.log, id), i);
  }

  lemma {:induction false} UnpaidIsFound(id: nat, n: nat, i: nat)
    requires i < n
    ensures Finding(id, Some(i), CHAIN_PAID_DB_NOT, Stands(AWAITING_FINANCE), Stands(PAID)) in UnpaidFindings(id, n)
  {
    if i < n - 1 {
      UnpaidIsFound(id, n - 1, i);
    }
  }

  /**
   * When finance approved first, a settled row is never PAID in the database; it stays at AWAITING_FINANCE, and a
   * finding names it.
   */
  lemma FinanceFirstNeverPaid(v0: View, s: Chain, id: nat, i: nat)
    requires Tracks(v0, s, id) && FirstApprover(s.log, id) == Some(ByFinance)
    requires i < |s.escrows[id].payments| && s.escrows[id].payments[i].status == Finalized
    ensures
      var v := Replayed(v0, s.log, id);
      && i in v.payments && v.payments[i].state == AWAITING_FINANCE
      && Finding(id, Some(i), CHAIN_PAID_DB_NOT, Stands(AWAITING_FINANCE), Stands(PAID)) in v.findings
  {
    hide Replayed, FirstApprover;
    var e := s.escrows[id];
    assert RowMirrors(Replayed(v0, s.log, id).payments[i], e, e.payments[i], FirstApprover(s.log, id), RowAt(v0, i));
    FinalizedNotCancelled(e, FirstApprover(s.log, id), i);
    UnpaidIsFound(id, |e.payments|, i);
  }

  /** A settled escrow shows its rows PAID if and only if the manager approved before finance did. */
  lemma PaidExactlyManagerFirst(v0: View, s: Chain, id: nat, i: nat)
    requires Tracks(v0, s, id) && i < |s.escrows[id].payments| && s.escrows[id].payments[i].status == Finalized
    requires s.escrows[id].managerApproved
    ensures
      var v := Replayed(v0, s.log, id);
      i in v.payments && (v.payments[i].state == PAID <==> FirstApprover(s.log, id) == Some(ByManager))
  {
    hide Replayed, FirstApprover, Mirrors;
    FinalizedNotCancelled(s.escrows[id], FirstApprover(s.log, id), i);
    if FirstApprover(s.log, id) == Some(ByFinance) {
      FinanceFirstNeverPaid(v0, s, id, i);
    } else {
      FaithfulUnlessFinanceFirst(v0, s, id, i);
    }
  }

  /**
   * What the database says of each slot, against the chain: PAID exactly when finalized with the manager first,
   * CANCELLED exactly when cancelled, verified or later exactly when proven unless finance came first, and every settled
   * row left unpaid is named by a finding.
   */
  ghost predicate RowsTellChain(v: View, id: nat, e: CoreFlowEscrow, first: Option<Approver>) {
    forall i :: 0 <= i < |e.payments| ==> i in v.payments && RowTellsSlot(v.payments[i], v.findings, id, i, e, first)
  }

  ghost predicate RowTellsSlot(row: PaymentRow, findings: multiset<Finding>, id: nat, i: nat, e: CoreFlowEscrow, first: Option<Approver>)
    requires i < |e.payments|
  {
    && (row.state == PAID <==> e.payments[i].status == Finalized && first == Some(ByManager))
    && (row.state == CANCELLED <==> e.cancelled)
    && (!e.cancelled && first != Some(ByFinance) ==> (row.state in VERIFIED_OR_LATER <==> e.payments[i].proofVerified))
    && (e.payments[i].status == Finalized && row.state != PAID ==>
          Finding(id, Some(i), CHAIN_PAID_DB_NOT, Stands(AWAITING_FINANCE), Stands(PAID)) in findings)
  }

  lemma TrackedRowsTell(v0: View, s: Chain, id: nat)
    requires Tracks(v0, s, id) && GoodEscrow(s.escrows[id])
    ensures RowsTellChain(Replayed(v0, s.log, id), id, s.escrows[id], FirstApprover(s.log, id))
  {
    hide Replayed, FirstApprover, Mirrors, Tracks;
    TrackedIsUniform(v0, s, id);
    var e, first, v := s.escrows[id], FirstApprover(s.log, id), Replayed(v0, s.log, id);
    forall i | 0 <= i < |e.payments| ensures i in v.payments && RowTellsSlot(v.payments[i], v.findings, id, i, e, first) {
      FinalizedNotCancelled(e, first, i);
      if first == Some(ByFinance) {
        FinanceFirstRow(v0, s, id, i);
      } else {
        FaithfulUnlessFinanceFirst(v0, s, id, i);
      }
    }
  }

  lemma TrackedIsUniform(v0: View, s: Chain, id: nat)
    requires Tracks(v0, s, id)
    ensures id in s.escrows && Uniform(s.escrows[id], FirstApprover(s.log, id))
  {
  }

  lemma FinanceFirstRow(v0: View, s: Chain, id: nat, i: nat)
    requires Tracks(v0, s, id) && FirstApprover(s.log, id) == Some(ByFinance) && i < |s.escrows[id].payments|
    ensures
      var e, v := s.escrows[id], Replayed(v0, s.log, id);
      i in v.payments && RowTellsSlot(v.payments[i], v.findings, id, i, e, Some(ByFinance))
  {
    hide Replayed, FirstApprover;
    var e := s.escrows[id];
    assert RowMirrors(Replayed(v0, s.log, id).payments[i], e, e.payments[i], FirstApprover(s.log, id), RowAt(v0, i));
    FinalizedNotCancelled(e, FirstApprover(s.log, id), i);
    UnpaidIsFound(id, |e.payments|, i);
  }

  // ----- through the ingestion -----

  /** The raw events carry this log, in order. */
  ghost predicate Carries(raws: seq<RawEvent>, log: seq<ContractEvent>) {
    |raws| == |log| && forall i :: 0 <= i < |log| ==> raws[i].event == log[i]
  }

  lemma IngestedOnView(d: Deployment, s: Store, raw: RawEvent, id: nat)
    requires Mapped(d, s, id) && raw.id !in s.marks
    ensures Mapped(d, Ingest(d, s, raw).1, id)
    ensures
      var ev := ParseEvent(raw.event);
      Ingest(d, s, raw).1.views[id]
      == if ev.Some? && ev.value.escrowId == id then Project(s.views[id], ev.value).view else s.views[id]
  {
    IngestKeepsMapping(d, s, raw, id);
    hide Project, ParseEvent, AsObject;
  }

  /** Ingesting new events leaves each mapped escrow's view exactly the log applied to it. */
  lemma {:induction false} IngestedView(d: Deployment, s: Store, raws: seq<RawEvent>, log: seq<ContractEvent>, id: nat)
    requires Fresh(s, raws) && Carries(raws, log) && Mapped(d, s, id)
    ensures Mapped(d, IngestAll(d, s, raws).1, id)
    ensures IngestAll(d, s, raws).1.views[id] == Replayed(s.views[id], log, id)
  {
    hide Ingest, Project, ParseEvent, Tally;
    if raws != [] {
      var n := |raws| - 1;
      IngestedView(d, s, raws[..n], log[..n], id);
      IngestAllKeeps(d, s, raws[..n], id, raws[n].id);
      IngestedOnView(d, IngestAll(d, s, raws[..n]).1, raws[n], id);
    }
  }

  lemma ChronologicalSorts(raws: seq<RawEvent>)
    requires Chronological(raws) && forall i, j :: 0 <= i < j < |raws| ==> raws[i].id != raws[j].id
    ensures Ordered(raws) && Coherent(raws)
  {
  }

  lemma SortsToLog(raws: seq<RawEvent>, batch: seq<RawEvent>)
    requires Chronological(raws) && (forall i, j :: 0 <= i < j < |raws| ==> raws[i].id != raws[j].id) && multiset(batch) == multiset(raws)
    ensures Sorted(batch) == raws && Coherent(batch)
  {
    hide Sorted, Precedes;
    ChronologicalSorts(raws);
    SameMembers(raws, batch);
    CoherentMembers(raws, batch);
    SortedSorts(batch);
    SortedUnique(raws, Sorted(batch));
  }

  /** However a run's log arrives, interrupted however often before one attempt completes, it is the log applied once, in order. */
  lemma DatabaseReplaysLog(h: Host, bal: Balances, tr: Trace, id: nat, d: Deployment, s: Store,
                           raws: seq<RawEvent>, batch: seq<RawEvent>, attempts: seq<set<Token>>)
    requires Carries(raws, Run(h, Genesis(bal), tr).log) && Chronological(raws) && Fresh(s, raws)
    requires multiset(batch) == multiset(raws) && Mapped(d, s, id)
    ensures
      var after := ProcessBatch(d, Attempts(d, s, batch, attempts), batch, {}).1;
      Mapped(d, after, id) && after.views[id] == Replayed(s.views[id], Run(h, Genesis(bal), tr).log, id)
  {
    hide Run, IngestAll, Replayed, Attempts, Sorted, Carries, Chronological, Coherent, Mapped;
    SortsToLog(raws, batch);
    CrashSafe(d, s, batch, attempts);
    assert raws[..|raws|] == raws;
    IngestedView(d, s, raws, Run(h, Genesis(bal), tr).log, id);
  }

  /**
   * Feed the database any run's log, in any order, with any number of interrupted attempts before one that
   * completes: a claimed escrow's picture mirrors the chain, and so does each of its rows.
   */
  lemma DatabaseMirrorsChain(h: Host, bal: Balances, tr: Trace, id: nat, d: Deployment, s: Store,
                             raws: seq<RawEvent>, batch: seq<RawEvent>, attempts: seq<set<Token>>)
    requires Admissible(h, tr) && EntersPending(h, Genesis(bal), tr, id)
    requires var c := Run(h, Genesis(bal), tr); Carries(raws, c.log) && id in c.escrows
    requires Chronological(raws) && Fresh(s, raws)
    requires multiset(batch) == multiset(raws)
    requires Mapped(d, s, id) && Unobserved(s.views[id]) && Prelinked(s.views[id], Run(h, Genesis(bal), tr).escrows[id].payments)
    ensures
      var c := Run(h, Genesis(bal), tr);
      var after := ProcessBatch(d, Attempts(d, s, batch, attempts), batch, {}).1;
      && Mapped(d, after, id)
      && after.views[id] == Replayed(s.views[id], c.log, id)
      && Mirrors(s.views[id], after.views[id], id, c.escrows[id], FirstApprover(c.log, id))
      && RowsTellChain(after.views[id], id, c.escrows[id], FirstApprover(c.log, id))
  {
    hide Run, IngestAll, Mirrors, RowsTellChain, Replayed, FirstApprover, Attempts;
    DatabaseReplaysLog(h, bal, tr, id, d, s, raws, batch, attempts);
    ProjectionRefines(h, bal, tr, id, s.views[id]);
    RunStructured(h, bal, tr);
    TrackedRowsTell(s.views[id], Run(h, Genesis(bal), tr), id);
  }

  /**
   * The same of disagreements, whatever payments the application had linked to the escrow, with any figures and in any
   * states: each keeps its figures, and what the chain says otherwise is noted, with both sides, exactly when it does.
   */
  lemma DatabaseNotesDisagreements(h: Host, bal: Balances, tr: Trace, id: nat, d: Deployment, s: Store,
                                   raws: seq<RawEvent>, batch: seq<RawEvent>, attempts: seq<set<Token>>, i: nat)
    requires Admissible(h, tr)
    requires var c := Run(h, Genesis(bal), tr); Carries(raws, c.log) && id in c.escrows
    requires Chronological(raws) && Fresh(s, raws)
    requires multiset(batch) == multiset(raws)
    requires Mapped(d, s, id) && i in s.views[id].payments
    ensures
      var rows := Run(h, Genesis(bal), tr).escrows[id].payments;
      var after, linked := ProcessBatch(d, Attempts(d, s, batch, attempts), batch, {}).1, s.views[id].payments[i];
      && Mapped(d, after, id)
      && i in after.views[id].payments && Disagreements.SamePayment(linked, after.views[id].payments[i])
      && (i < |rows| ==> Disagreements.NotedExactly(s.views[id], after.views[id], id, i, linked, rows[i], AllFinalized(rows)))
  {
    hide Run, IngestAll, Replayed, Attempts, Disagreements.NotedExactly;
    DatabaseReplaysLog(h, bal, tr, id, d, s, raws, batch, attempts);
    Disagreements.DisagreementsExactly(h, bal, tr, id, s.views[id], i);
  }

  /** An escrow claimed only after its whole history was ingested mirrors the chain after one replay. */
  lemma LateClaimMirrorsChain(h: Host, bal: Balances, tr: Trace, id: nat, d: Deployment, s: Store, raws: seq<RawEvent>, v0: View, limit: nat)
    requires Admissible(h, tr) && EntersPending(h, Genesis(bal), tr, id)
    requires var c := Run(h, Genesis(bal), tr); Carries(raws, c.log) && id in c.escrows && Prelinked(v0, c.escrows[id].payments)
    requires Chronological(raws) && Fresh(s, raws) && id !in s.views && v0.escrow.deployment == d && Unobserved(v0)
    requires forall t :: t in Unapplied(d, s) ==> Stuck(d, Claim(s, id, v0), t)
    requires |Unapplied(d, Claim(IngestAll(d, s, raws).1, id, v0))| <= limit
    ensures
      var c := Run(h, Genesis(bal), tr);
      var after := Replay(d, Claim(IngestAll(d, s, raws).1, id, v0), limit);
      && Mapped(d, after, id)
      && Mirrors(v0, after.views[id], id, c.escrows[id], FirstApprover(c.log, id))
      && RowsTellChain(after.views[id], id, c.escrows[id], FirstApprover(c.log, id))
  {
    hide Run, IngestAll, Mirrors, RowsTellChain, Replayed, FirstApprover, Replay, Stuck;
    var c := Run(h, Genesis(bal), tr);
    BacklogMakesNoDifference(d, s, raws, id, v0, limit);
    IngestedView(d, Claim(s, id, v0), raws, c.log, id);
    ProjectionRefines(h, bal, tr, id, v0);
    RunStructured(h, bal, tr);
    TrackedRowsTell(v0, c, id);
  }
}
