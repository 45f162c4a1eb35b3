/**
 * The indexer over the database's tables: one transaction per event, staged updates inside it. Each method is tied
 * to the step of `Projection`, `Ingestion` or `Backlog` it performs.
 */
module Indexer {
  import opened Prelude
  import opened StateMachine
  import opened Events
  import opened Projection
  import opened Ingestion
  import opened Backlog
  import opened Tables

  class Indexer {
    const deployment: Deployment
    var escrows: map<nat, EscrowRow>
    var batches: set<(string, nat)>
    var payments: PaymentTable
    var workers: set<(string, Address)>
    var findings: seq<Finding>
    var audits: seq<Audit>
    var events: map<Token, Mark>

    function Now(): Db
      reads this
    {
      Db(escrows, batches, payments, workers, findings, audits, events)
    }

    constructor (deployment: Deployment, db: Db)
      ensures Now() == db && this.deployment == deployment
    {
      this.deployment := deployment;
      escrows, batches, payments, workers := db.escrows, db.batches, db.payments, db.workers;
      findings, audits, events := db.findings, db.audits, db.events;
    }

    // ----- table writes -----

    method EnsureBatch(id: nat)
      requires id in escrows
      modifies this`batches
      ensures Only(old(Now()), Now(), id, ViewOf(old(Now()), id).(batch := true))
    {
      AddBatch(Now(), id);
      if (escrows[id].org, id) !in batches {
        batches := batches + {(escrows[id].org, id)};
      } else {
        assert batches == batches + {(escrows[id].org, id)};
      }
    }

    method UpdateEscrow(id: nat, row: EscrowRow)
      requires id in escrows && row.org == escrows[id].org
      modifies this`escrows
      ensures Only(old(Now()), Now(), id, ViewOf(old(Now()), id).(escrow := row))
    {
      PutEscrow(Now(), id, row);
      escrows := escrows[id := row];
    }

    method SavePayment(id: nat, slot: nat, row: PaymentRow)
      requires id in escrows
      modifies this`payments
      ensures
        var v := ViewOf(old(Now()), id);
        Only(old(Now()), Now(), id, v.(payments := v.payments[slot := row]))
    {
      PutPayment(Now(), id, slot, row);
      payments := payments[(id, slot) := row];
    }

    method UpdateStates(id: nat, from: set<PaymentState>, to: PaymentState)
      requires id in escrows
      modifies this`payments
      ensures
        var v := ViewOf(old(Now()), id);
        Only(old(Now()), Now(), id, v.(payments := Restated(v.payments, from, to)))
    {
      UpdatedMany(Now(), id, from, to);
      payments := UpdateMany(payments, id, from, to);
    }

    method OpenFinding(f: Finding)
      requires f.escrow in escrows
      modifies this`findings
      ensures Only(old(Now()), Now(), f.escrow, Found(ViewOf(old(Now()), f.escrow), f))
    {
      AddFinding(Now(), f);
      findings := findings + [f];
    }

    method RecordAudit(a: Audit)
      requires a.escrow in escrows
      modifies this`audits
      ensures
        var v := ViewOf(old(Now()), a.escrow);
        Only(old(Now()), Now(), a.escrow, v.(audits := v.audits + multiset{a}))
    {
      AddAudit(Now(), a);
      audits := audits + [a];
    }

    /** The state machine applied to one payment, as the indexer. */
    method ApplyTransition(id: nat, slot: nat, to: PaymentState) returns (ok: bool, changed: bool)
      requires id in escrows && (id, slot) in payments
      modifies this`payments, this`audits
      ensures
        var v := ViewOf(old(Now()), id);
        && slot in v.payments
        && changed == (v.payments[slot].state != to && MayMove(v.payments[slot], to))
        && ok == (v.payments[slot].state == to || changed)
        && Only(old(Now()), Now(), id, if changed then Moved(v, id, slot, to) else v)
    {
      hide ViewOf, CheckTransition;
      InView(Now(), id, slot);
      OnlyNothing(Now(), id);
      var row := payments[(id, slot)];
      if row.state == to { return true, false; }
      if !MayMove(row, to) { return false, false; }
      SavePayment(id, slot, row.(state := to));
      label swapped:
      RecordAudit(Audit(id, slot, StateChanged, Some(row.state), to));
      return true, true;
    }

    // ----- one method per kind of event -----

    method OnCreated(ev: CoreFlowEvent)
      requires ev.CreatedEvent? && ev.escrowId in escrows
      modifies this
      ensures Only(old(Now()), Now(), ev.escrowId, Project(ViewOf(old(Now()), ev.escrowId), ev).view)
    {
      var id := ev.escrowId;
      ghost var v := ViewOf(Now(), id);
      UpdateEscrow(id, escrows[id].(manager := ev.manager, total := ev.totalAmount));
      hide ViewOf;
      EnsureBatch(id);
    }

    method EnsureWorker(org: string, wallet: Address)
      modifies this`workers
      ensures workers == old(workers) + {(org, wallet)}
    {
      if (org, wallet) !in workers {
        workers := workers + {(org, wallet)};
      }
    }

    method OnPaymentAdded(ev: CoreFlowEvent) returns (p: Projected)
      requires ev.PaymentAddedEvent? && ev.escrowId in escrows
      modifies this
      ensures p == AddPayment(ViewOf(old(Now()), ev.escrowId), ev)
      ensures Only(old(Now()).(workers := old(workers) + {(old(escrows[ev.escrowId].org), ev.worker)}), Now(), ev.escrowId, p.view)
    {
      var id, slot := ev.escrowId, ev.paymentIndex;
      ghost var start := Now().(workers := workers + {(escrows[id].org, ev.worker)});
      p := AddPayment(ViewOf(Now(), id), ev);
      assert ViewOf(start, id) == ViewOf(Now(), id);
      EnsureWorker(escrows[id].org, ev.worker);
      assert Now() == start;
      hide ViewOf, CheckTransition;
      EnsureBatch(id);
      ghost var v := ViewOf(Now(), id);
      InView(Now(), id, slot);
      if (id, slot) in payments {
        var row := payments[(id, slot)];
        if row.amount != ev.amountBaseUnits || row.recipient != ev.worker {
          OpenFinding(Finding(id, Some(slot), AMOUNT_MISMATCH, PayeeAmount(row.recipient, row.amount), PayeeAmount(ev.worker, ev.amountBaseUnits)));
        }
        if row.state == VALIDATING {
          var _, _ := ApplyTransition(id, slot, AWAITING_ORACLE);
        }
      } else {
        var hours := if ev.rateBaseUnits > 0 then Quotient(ev.amountBaseUnits, ev.rateBaseUnits) else 0;
        SavePayment(id, slot, PaymentRow(ev.worker, Some(ev.token), ev.amountBaseUnits, ev.rateBaseUnits, hours,
                                         Milliseconds(ev.periodStart), Milliseconds(ev.periodEnd), AWAITING_ORACLE));
        RecordAudit(Audit(id, slot, PaymentIndexed, None, AWAITING_ORACLE));
      }
    }

    method OnHours(ev: CoreFlowEvent)
      requires ev.HoursEvent? && ev.escrowId in escrows
      modifies this`payments, this`audits
      ensures Only(old(Now()), Now(), ev.escrowId, AcceptHours(ViewOf(old(Now()), ev.escrowId), ev).view)
    {
      hide ViewOf;
      var id, slot := ev.escrowId, ev.paymentIndex;
      OnlyNothing(Now(), id);
      InView(Now(), id, slot);
      if (id, slot) !in payments { return; }
      var row := payments[(id, slot)];
      ghost var v := ViewOf(Now(), id);
      if row.state == AWAITING_ORACLE {
        SavePayment(id, slot, row.(state := ORACLE_VERIFIED, hours := ev.hours));
      } else {
        assert v.payments == v.payments[slot := row];
      }
      RecordAudit(Audit(id, slot, OracleVerifiedSeen, Some(row.state), ORACLE_VERIFIED));
    }

    /** One audit row per payment the approval moved. */
    method AuditAll(slots: set<nat>, id: nat, kind: AuditKind, previous: PaymentState, next: PaymentState)
      requires id in escrows
      modifies this`audits
      ensures
        var v := ViewOf(old(Now()), id);
        Only(old(Now()), Now(), id, v.(audits := v.audits + AuditEach(slots, id, kind, previous, next)))
    {
      hide ViewOf;
      ghost var start, v := Now(), ViewOf(Now(), id);
      var left, done := slots, {};
      OnlyNothing(Now(), id);
      NoneAudited(v, id, kind, previous, next);
      hide Only, AuditEach;
      while left != {}
        invariant done + left == slots && done !! left && id in escrows
        invariant Only(start, Now(), id, Audited(v, done, id, kind, previous, next))
        decreases |left|
      {
        var slot :| slot in left;
        ghost var before := Now();
        OnlyKeeps(start, before, id, Audited(v, done, id, kind, previous, next));
        RecordAudit(Audit(id, slot, kind, Some(previous), next));
        AuditedMore(v, done, slot, id, kind, previous, next);
        OnlyThen(start, before, Now(), id, Audited(v, done, id, kind, previous, next), Audited(v, done + {slot}, id, kind, previous, next));
        OnlyKeeps(start, Now(), id, Audited(v, done + {slot}, id, kind, previous, next));
        left, done := left - {slot}, done + {slot};
      }
      assert done == slots;
    }

    method OnApproved(id: nat, byManager: bool)
      requires id in escrows
      modifies this
      ensures Only(old(Now()), Now(), id, Approved(ViewOf(old(Now()), id), id, byManager).view)
    {
      ghost var v := ViewOf(Now(), id);
      var row := escrows[id];
      UpdateEscrow(id, if byManager then row.(managerApproved := true) else row.(financeApproved := true));
      hide ViewOf;
      var waiting := if byManager then AWAITING_MANAGER else AWAITING_FINANCE;
      var next := if byManager then AWAITING_FINANCE else READY_TO_SETTLE;
      UpdateStates(id, {ORACLE_VERIFIED}, AWAITING_MANAGER);
      var affected := SlotsIn(payments, id, waiting);
      SlotsInView(Now(), id, waiting);
      UpdateStates(id, {waiting}, next);
      AuditAll(affected, id, if byManager then ManagerApprovalSeen else FinanceApprovalSeen, waiting, next);
    }

    method OnPaid(ev: CoreFlowEvent) returns (p: Projected)
      requires ev.PaymentPaidEvent? && ev.escrowId in escrows
      modifies this`payments, this`audits, this`findings
      ensures p == ObservePaid(ViewOf(old(Now()), ev.escrowId), ev)
      ensures Only(old(Now()), Now(), ev.escrowId, p.view)
    {
      hide ViewOf, CheckTransition;
      var id, slot := ev.escrowId, ev.paymentIndex;
      p := ObservePaid(ViewOf(Now(), id), ev);
      OnlyNothing(Now(), id);
      InView(Now(), id, slot);
      if (id, slot) !in payments {
        OpenFinding(Finding(id, None, ORPHAN_ON_CHAIN, Nothing, Stands(PAID)));
        return;
      }
      var row := payments[(id, slot)];
      if row.amount != ev.amountBaseUnits {
        OpenFinding(Finding(id, Some(slot), AMOUNT_MISMATCH, Amount(row.amount), Amount(ev.amountBaseUnits)));
      }
      if row.recipient != ev.worker {
        OpenFinding(Finding(id, Some(slot), RECIPIENT_MISMATCH, Payee(row.recipient), Payee(ev.worker)));
      }
      if row.state == PAID { return; }
      var ok, _ := ApplyTransition(id, slot, PAID);
      if !ok {
        OpenFinding(Finding(id, Some(slot), CHAIN_PAID_DB_NOT, Stands(row.state), Stands(PAID)));
      }
    }

    method OnPaymentCancelled(ev: CoreFlowEvent) returns (p: Projected)
      requires ev.PaymentCancelledEvent? && ev.escrowId in escrows
      modifies this`payments, this`audits, this`findings
      ensures p == CancelPayment(ViewOf(old(Now()), ev.escrowId), ev)
      ensures Only(old(Now()), Now(), ev.escrowId, p.view)
    {
      hide ViewOf;
      var id, slot := ev.escrowId, ev.paymentIndex;
      p := CancelPayment(ViewOf(Now(), id), ev);
      OnlyNothing(Now(), id);
      InView(Now(), id, slot);
      if (id, slot) !in payments { return; }
      if payments[(id, slot)].state == PAID {
        OpenFinding(Finding(id, Some(slot), DB_PAID_CHAIN_NOT, Stands(PAID), Stands(CANCELLED)));
        return;
      }
      var _, _ := ApplyTransition(id, slot, CANCELLED);
    }

    method OnRotated(ev: CoreFlowEvent)
      requires ev.OracleRotatedEvent? && ev.escrowId in escrows
      modifies this`escrows, this`payments
      ensures Only(old(Now()), Now(), ev.escrowId, Project(ViewOf(old(Now()), ev.escrowId), ev).view)
    {
      ghost var v := ViewOf(Now(), ev.escrowId);
      UpdateEscrow(ev.escrowId, escrows[ev.escrowId].(rotations := ev.rotations));
      hide ViewOf;
      UpdateStates(ev.escrowId, REVOCABLE, AWAITING_ORACLE);
    }

    method OnFinalized(ev: CoreFlowEvent) returns (p: Projected)
      requires ev.FinalizedEvent? && ev.escrowId in escrows
      modifies this`findings
      ensures p == Summarised(ViewOf(old(Now()), ev.escrowId), ev)
      ensures Only(old(Now()), Now(), ev.escrowId, p.view)
    {
      var id := ev.escrowId;
      p := Summarised(ViewOf(Now(), id), ev);
      OnlyNothing(Now(), id);
      PaymentsAt(payments, id);
      var unpaid := set k | k in payments && k.0 == id && payments[k].state != PAID;
      assert unpaid == {} <==> forall i :: i in ViewOf(Now(), id).payments ==> ViewOf(Now(), id).payments[i].state == PAID by {
        hide PaymentsOf;
        assert forall i :: i in ViewOf(Now(), id).payments && ViewOf(Now(), id).payments[i].state != PAID ==> (id, i) in unpaid;
        assert forall k :: k in unpaid ==> k.1 in ViewOf(Now(), id).payments;
      }
      if |unpaid| > 0 {
        OpenFinding(Finding(id, None, CHAIN_PAID_DB_NOT, Nothing, SettledCount(ev.count)));
      }
    }
  
    // ----- a whole event, a whole batch, a whole replay -----

    method ApplyMapped(ev: CoreFlowEvent) returns (p: Projected)
      requires ev.escrowId in escrows
      modifies this
      ensures events == old(events)
      ensures p == Project(ViewOf(old(Now()), ev.escrowId), ev)
      ensures
        var added := if ev.PaymentAddedEvent? then {(old(escrows[ev.escrowId].org), ev.worker)} else {};
        Only(old(Now()).(workers := old(workers) + added), Now(), ev.escrowId, p.view)
    {
      hide ViewOf, AddPayment, AcceptHours, Approved, ObservePaid, CancelPayment, Summarised;
      p := Project(ViewOf(Now(), ev.escrowId), ev);
      assert !ev.PaymentAddedEvent? ==> Now() == Now().(workers := workers + {});
      OnlyNothing(Now(), ev.escrowId);
      match ev {
        case CreatedEvent(_, _, _) => OnCreated(ev);
        case PaymentAddedEvent(_, _, _, _, _, _, _, _) => var _ := OnPaymentAdded(ev);
        case HoursEvent(_, _, _) => OnHours(ev);
        case ManagerApprovedEvent(id) => OnApproved(id, true);
        case FinanceApprovedEvent(id) => OnApproved(id, false);
        case PaymentPaidEvent(_, _, _, _, _, _) => var _ := OnPaid(ev);
        case PaymentCancelledEvent(_, _) => var _ := OnPaymentCancelled(ev);
        case CancelledEvent(id) => UpdateEscrow(id, escrows[id].(cancelled := true)); SameEscrow(old(Now()), id);
        case OracleRotatedEvent(_, _) => OnRotated(ev);
        case FinalizedEvent(_, _, _) => var _ := OnFinalized(ev);
      }
    }

    /** Resolve the tenant from the escrow's own row; without one, touch nothing. */
    method Apply(ev: CoreFlowEvent) returns (applied: Applied)
      modifies this
      ensures (applied, StoreOf(Now())) == ApplyEvent(deployment, StoreOf(old(Now())), ev)
    {
      hide ViewOf, Project;
      var id := ev.escrowId;
      EscrowInView(Now());
      if id !in escrows || escrows[id].deployment != deployment { return Unattributed; }
      ghost var start := Now();
      ghost var added := if ev.PaymentAddedEvent? then {(escrows[id].org, ev.worker)} else {};
      var p := ApplyMapped(ev);
      OnlyStore(start.(workers := start.workers + added), Now(), id, p.view);
      WorkersApart(start, start.workers + added);
      assert start.workers + {} == start.workers;
      return Attributed(p.created, p.paid, p.findings);
    }

    /** One transaction: skip what is already applied, otherwise apply the event and write its marker together. */
    method IngestOne(raw: RawEvent) returns (i: Ingested)
      modifies this
      ensures (i, StoreOf(Now())) == Ingest(deployment, StoreOf(old(Now())), raw)
    {
      hide ViewOf, ApplyEvent, ParseEvent, AsObject;
      if raw.id in events && events[raw.id].attributed { return Skipped; }
      var parsed := ParseEvent(raw.event);
      var applied := Attributed(0, 0, 0);
      var payload: Option<Object> := None;
      if parsed.Some? {
        ApplyIgnoresMarks(deployment, StoreOf(Now()), parsed.value, events);
        applied := Apply(parsed.value);
        var o := SerializePayload(AsObject(parsed.value));
        payload := Some(o);
      }
      var mark :=
        if raw.id in events then events[raw.id].(attributed := applied.Attributed?)
        else Mark(applied.Attributed?, deployment, raw.ledger, payload);
      MarksApart(Now(), events[raw.id := mark]);
      events := events[raw.id := mark];
      return Processed(applied);
    }

    /** A batch, in chronological order, up to the first event whose transaction the database rejects. */
    method Process(raws: seq<RawEvent>, outages: set<Token>) returns (result: RunResult, threw: bool)
      modifies this
      ensures (result, StoreOf(Now())) == ProcessBatch(deployment, StoreOf(old(Now())), raws, outages)
      ensures threw <==> Reach(Sorted(raws), outages) < |raws|
    {
      hide ViewOf, Ingest, StoreOf, Tally, Sorted;
      ghost var start := StoreOf(Now());
      var ordered := Sorted(raws);
      SortedSorts(raws);
      assert |ordered| == |multiset(ordered)| && |raws| == |multiset(raws)|;
      result := RunResult(0, 0, 0, 0, 0, 0, 0);
      var n := 0;
      while n < |ordered|
        invariant 0 <= n <= |ordered| && Reach(ordered[..n], outages) == n
        invariant (result, StoreOf(Now())) == IngestAll(deployment, start, ordered[..n])
      {
        var raw := ordered[n];
        assert ordered[..n + 1][..n] == ordered[..n];
        if raw.id in outages {
          ReachStops(ordered, outages, n);
          return result, true;
        }
        var i := IngestOne(raw);
        result := Tally(result, raw, i);
        n := n + 1;
      }
      assert ordered[..n] == ordered;
      return result, false;
    }

    /**
     * The stored events still waiting for an organization, earliest first, applied from their payloads; one the database
     * rejects is left waiting and the rest go on. A rejected update of a marker without a readable event is not caught: the
     * replay ends there, and its counts are lost.
     */
    method ReplayUnattributed(limit: nat, outages: set<Token>)
      returns (ended: bool, examined: nat, applied: nat, waiting: nat, created: nat, paid: nat)
      modifies this
      ensures
        var start := StoreOf(old(Now()));
        var pending := Examined(deployment, start, limit);
        && (forall t :: t in pending ==> t in start.marks)
        && var done := Attempted(start.marks, pending, outages);
        && StoreOf(Now()) == ReplayList(deployment, start, Surviving(start.marks, done, outages))
        && (outages == {} ==> StoreOf(Now()) == Replay(deployment, start, limit))
        && (ended <==> |done| < |pending|)
        && (!ended ==>
              && examined == |pending|
              && applied == AppliedIn(deployment, start, pending, outages) && waiting == WaitingIn(deployment, start, pending, outages)
              && (created, paid) == ReplaySums(deployment, start, Surviving(start.marks, pending, outages)))
    {
      hide ViewOf, StoreOf, ReplayOne, Stored, StandsAt, Listed, Examined, ReplayList, Surviving, Attempted, AppliedIn, WaitingIn, ReplaySums;
      ghost var start := StoreOf(Now());
      StoreEvents(Now());
      var pending := EarliestPending(limit);
      ended, examined, applied, waiting, created, paid := false, |pending|, 0, 0, 0, 0;
      StandsAtStart(deployment, start, outages);
      var n := 0;
      while n < |pending| && !ended
        invariant 0 <= n <= |pending| && events.Keys == start.marks.Keys
        invariant forall i :: 0 <= i < n ==> !Breaks(start.marks, pending[i], outages)
        invariant ended ==> n < |pending| && Breaks(start.marks, pending[n], outages)
        invariant StandsAt(deployment, start, pending[..n], outages, StoreOf(Now()), applied, waiting, created, paid)
        decreases |pending| - n, !ended
      {
        var t := pending[n];
        assert pending[..n + 1] == pending[..n] + [t];
        StandsAfterOne(deployment, start, pending[..n], t, outages, StoreOf(Now()), applied, waiting, created, paid);
        StoreEvents(Now());
        var readable := IsReadable(t);
        if !readable && t in outages {
          ended := true;
        } else {
          if readable && t in outages {
            waiting := waiting + 1;
          } else {
            var outcome := ReplayMark(t);
            StoreEvents(Now());
            if outcome.Attributed? {
              created, paid := created + outcome.created, paid + outcome.paid;
              if readable { applied := applied + 1; }
            } else {
              waiting := waiting + 1;
            }
          }
          n := n + 1;
        }
      }
      assert pending[..|pending|] == pending;
      StandsAtEnd(deployment, start, limit, n, outages, StoreOf(Now()), applied, waiting, created, paid);
    }

    /** The query: this deployment's unattributed markers, earliest first, up to the limit. */
    method EarliestPending(limit: nat) returns (pending: seq<Token>)
      ensures pending == Examined(deployment, StoreOf(Now()), limit)
      ensures forall t :: t in pending ==> t in events && !events[t].attributed
      ensures forall i, j :: 0 <= i < j < |pending| ==> pending[i] != pending[j]
    {
      hide ViewOf, StoreOf;
      StoreEvents(Now());
      ghost var start := StoreOf(Now());
      assert PendingIn(events) == Unapplied(deployment, start);
      var all := Listed(events, PendingIn(events));
      pending := all[..if limit <= |all| then limit else |all|];
      assert pending == Examined(deployment, start, limit);
      ExaminedArePending(deployment, start, limit);
      ListedIsOrdered(events, PendingIn(events));
    }

    /** Whether a marker's payload holds an event at all. */
    method IsReadable(t: Token) returns (readable: bool)
      requires t in events
      ensures readable <==> Stored(events[t]).Some?
    {
      hide AsEvent;
      var mark := events[t];
      if mark.payload == None { return false; }
      var record := DeserializePayload(mark.payload.value);
      hide Deserialize;
      return record.Some? && AsEvent(record.value).Some?;
    }

    function PendingIn(events: map<Token, Mark>): (p: set<Token>)
      ensures forall u :: u in p ==> u in events
    {
      set t | t in events && !events[t].attributed && events[t].deployment == deployment
    }

    method ReplayMark(t: Token) returns (applied: Applied)
      requires t in events
      modifies this
      ensures t in StoreOf(old(Now())).marks
      ensures (applied, StoreOf(Now())) == ReplayOne(deployment, StoreOf(old(Now())), t)
    {
      hide ViewOf, ApplyEvent, AsEvent;
      var mark := events[t];
      var record: Option<Object> := None;
      if mark.payload.Some? { record := DeserializePayload(mark.payload.value); }
      var ev := if record.Some? then AsEvent(record.value) else None;
      hide Deserialize;
      applied := Attributed(0, 0, 0);
      if ev.Some? {
        ApplyIgnoresMarks(deployment, StoreOf(Now()), ev.value, events);
        applied := Apply(ev.value);
      }
      MarksApart(Now(), events[t := mark.(attributed := applied.Attributed?)]);
      events := events[t := mark.(attributed := applied.Attributed?)];
    }
  }

  lemma SameEscrow(db: Db, id: nat)
    requires id in db.escrows
    ensures ViewOf(db, id).escrow == db.escrows[id]
  {
  }

  lemma EscrowInView(db: Db)
    ensures forall id :: id in db.escrows <==> id in StoreOf(db).views
    ensures forall id :: id in db.escrows ==> StoreOf(db).views[id] == ViewOf(db, id) && ViewOf(db, id).escrow == db.escrows[id]
  {
  }

  lemma WorkersApart(db: Db, workers: set<(string, Address)>)
    ensures StoreOf(db.(workers := workers)) == StoreOf(db).(workers := workers)
  {
    assert StoreOf(db.(workers := workers)).views == StoreOf(db).views;
  }

  lemma MarksApart(db: Db, events: map<Token, Mark>)
    ensures StoreOf(db.(events := events)) == StoreOf(db).(marks := events)
  {
    assert StoreOf(db.(events := events)).views == StoreOf(db).views;
  }

  lemma StoreEvents(db: Db)
    ensures StoreOf(db).marks == db.events
  {
  }

  lemma {:induction false} ReachStops(raws: seq<RawEvent>, outages: set<Token>, n: nat)
    requires n < |raws| && Reach(raws[..n], outages) == n && raws[n].id in outages
    ensures Reach(raws, outages) == n
  {
    var m := |raws| - 1;
    if n < m {
      assert raws[..m][..n] == raws[..n];
      ReachStops(raws[..m], outages, n);
    }
  }

  function Audited(v: View, slots: set<nat>, id: nat, kind: AuditKind, previous: PaymentState, next: PaymentState): View {
    v.(audits := v.audits + AuditEach(slots, id, kind, previous, next))
  }

  lemma NoneAudited(v: View, id: nat, kind: AuditKind, previous: PaymentState, next: PaymentState)
    ensures Audited(v, {}, id, kind, previous, next) == v
  {
    assert AuditSet({}, id, kind, previous, next) == {};
  }

  lemma AuditedMore(v: View, done: set<nat>, slot: nat, id: nat, kind: AuditKind, previous: PaymentState, next: PaymentState)
    requires slot !in done
    ensures
      var w := Audited(v, done, id, kind, previous, next);
      Audited(v, done + {slot}, id, kind, previous, next)
      == w.(audits := w.audits + multiset{Audit(id, slot, kind, Some(previous), next)})
  {
    var a := Audit(id, slot, kind, Some(previous), next);
    AuditSetMore(done, slot, id, kind, previous, next);
    hide AuditEach;
    assert v.audits + (AuditEach(done, id, kind, previous, next) + multiset{a})
           == v.audits + AuditEach(done, id, kind, previous, next) + multiset{a};
  }

  lemma AuditSetMore(done: set<nat>, slot: nat, id: nat, kind: AuditKind, previous: PaymentState, next: PaymentState)
    requires slot !in done
    ensures
      AuditEach(done + {slot}, id, kind, previous, next)
      == AuditEach(done, id, kind, previous, next) + multiset{Audit(id, slot, kind, Some(previous), next)}
  {
    var a := Audit(id, slot, kind, Some(previous), next);
    var s := AuditSet(done, id, kind, previous, next);
    assert a !in s;
    assert AuditSet(done + {slot}, id, kind, previous, next) == s + {a};
    hide AuditSet;
    assert multiset(s + {a}) == multiset(s) + multiset{a};
  }

  lemma OnlyKeeps(a: Db, b: Db, id: nat, v: View)
    requires Only(a, b, id, v)
    ensures id in b.escrows && ViewOf(b, id) == v && b.escrows.Keys == a.escrows.Keys
  {
  }
}
