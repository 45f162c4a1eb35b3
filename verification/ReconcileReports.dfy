/**
 * What a reconciliation run leaves, to the letter: for each payment its state, its audit row and the findings open about it,
 * each exactly when the chain's slot and the row as it was say so; and a report that counts what was written.
 */
module ReconcileReports {
  import opened Prelude
  import opened Escrow
  import opened StateMachine
  import opened Transitions
  import opened Projection
  import opened Reconcile

  /** Why a finding about a payment is open after its examination, besides having been open before. */
  predicate Reason(kind: FindingKind, row: BookRow, cp: Option<ChainPayment>) {
    match cp
    case None => kind == MISSING_ON_CHAIN
    case Some(c) =>
      match kind
      case AMOUNT_MISMATCH => row.amount != c.amount
      case RECIPIENT_MISMATCH => row.recipient != c.worker
      case CHAIN_PAID_DB_NOT => c.status == Finalized && row.state != PAID && row.state !in SETTLEABLE
      case DB_PAID_CHAIN_NOT => c.status != Finalized && row.state == PAID
      case _ => false
  }

  /** Where the payment ends: PAID if settled and it can be, CANCELLED if cancelled and it can be, else where it was. */
  function Outcome(row: BookRow, cp: Option<ChainPayment>): PaymentState {
    if cp.Some? && cp.value.status == Finalized && row.state in SETTLEABLE then PAID
    else if cp.Some? && cp.value.status == Cancelled && row.state in MIRRORS_CANCEL then CANCELLED
    else row.state
  }

  /** The audit row of a change, if there is one. */
  function Change(p: PaymentId, row: BookRow, cp: Option<ChainPayment>): seq<AuditRow> {
    if Outcome(row, cp) != row.state then [AuditRow(p, row.state, Outcome(row, cp), RECONCILER)] else []
  }

  function CountTo(audits: seq<AuditRow>, state: PaymentState): nat {
    if audits == [] then 0 else CountTo(audits[..|audits| - 1], state) + if audits[|audits| - 1].next == state then 1 else 0
  }

  lemma {:induction false} CountToConcat(a: seq<AuditRow>, b: seq<AuditRow>, state: PaymentState)
    ensures CountTo(a + b, state) == CountTo(a, state) + CountTo(b, state)
  {
    if b == [] {
      assert a + b == a;
    } else {
      CountToConcat(a, b[..|b| - 1], state);
      assert (a + b)[..|a + b| - 1] == a + b[..|b| - 1];
    }
  }

  lemma {:induction false} TrailOfConcat(a: seq<AuditRow>, b: seq<AuditRow>, p: PaymentId)
    ensures TrailOf(a + b, p) == TrailOf(a, p) + TrailOf(b, p)
  {
    if b == [] {
      assert a + b == a;
    } else {
      TrailOfConcat(a, b[..|b| - 1], p);
      assert (a + b)[..|a + b| - 1] == a + b[..|b| - 1];
    }
  }

  // ----- one payment -----

  /** The report counts the findings opened, the payments advanced to PAID and those flagged as cancelled. */
  ghost predicate Counted(g: Progress, r: Progress) {
    && r.report.found - g.report.found == |r.books.findings| - |g.books.findings|
    && r.report.advanced - g.report.advanced == CountTo(r.books.audits, PAID) - CountTo(g.books.audits, PAID)
    && r.report.flagged - g.report.flagged == CountTo(r.books.audits, CANCELLED) - CountTo(g.books.audits, CANCELLED)
  }

  ghost predicate OpensJust(g: Progress, r: Progress, q: Option<PaymentId>, kind: FindingKind, why: bool) {
    Open(r.books.findings, q, kind) <==> Open(g.books.findings, q, kind) || why
  }

  lemma RecordExactly(g: Progress, payment: Option<PaymentId>, k: FindingKind, q: Option<PaymentId>, kind: FindingKind)
    ensures OpensJust(g, Record(g, payment, k), q, kind, q == payment && kind == k)
    ensures
      var r := Record(g, payment, k);
      && r.books.payments == g.books.payments && r.books.audits == g.books.audits
      && r.report == g.report.(found := r.report.found) && r.report.found - g.report.found == |r.books.findings| - |g.books.findings|
  {
    var r := Record(g, payment, k);
    if Open(g.books.findings, q, kind) {
      RecordOpens(g, payment, k);
      OpenStays(g.books.findings, r.books.findings, q, kind);
    }
    if q == payment && kind == k {
      RecordOpens(g, payment, k);
    }
    if Open(r.books.findings, q, kind) && !Open(g.books.findings, q, kind) {
      var i :| 0 <= i < |r.books.findings| && r.books.findings[i] == Issue(q, kind, false);
      assert i >= |g.books.findings|;
    }
  }

  lemma PaidExactly(state: PaymentState)
    ensures Permitted(state, PAID) <==> state in SETTLEABLE
  {
  }

  lemma PermittedExactly(state: PaymentState)
    ensures Permitted(state, PAID) <==> state in SETTLEABLE
    ensures Permitted(state, CANCELLED) <==> state in MIRRORS_CANCEL
    ensures !Permitted(PAID, RECONCILIATION_REQUIRED)
    ensures PAID !in SETTLEABLE && PAID !in MIRRORS_CANCEL && CANCELLED !in MIRRORS_CANCEL && CANCELLED !in SETTLEABLE
  {
    PaidExactly(state);
    PaidStays(RECONCILIATION_REQUIRED);
    CancelledExactly(state);
    hide Permitted;
  }

  lemma CancelledExactly(state: PaymentState)
    ensures Permitted(state, CANCELLED) <==> state in MIRRORS_CANCEL
  {
  }

  /** What the settlement and cancellation half does, but for the counts. */
  lemma SettlementExactly(g: Progress, p: PaymentId, c: ChainPayment, q: Option<PaymentId>, kind: FindingKind)
    requires p in g.books.payments
    ensures
      var r, row := ExamineSettlement(g, p, c), g.books.payments[p];
      && r.books.payments == g.books.payments[p := row.(state := Outcome(row, Some(c)))]
      && r.books.audits == g.books.audits + Change(p, row, Some(c))
      && OpensJust(g, r, q, kind, q == Some(p) && kind in {CHAIN_PAID_DB_NOT, DB_PAID_CHAIN_NOT} && Reason(kind, row, Some(c)))
      && r.report.payments == g.report.payments && r.report.escrows == g.report.escrows && r.report.unreadable == g.report.unreadable
      && r.report.found - g.report.found == |r.books.findings| - |g.books.findings|
      && r.report.advanced - g.report.advanced == (if Outcome(row, Some(c)) == PAID && row.state != PAID then 1 else 0)
      && r.report.flagged - g.report.flagged == (if Outcome(row, Some(c)) == CANCELLED && row.state != CANCELLED then 1 else 0)
  {
    hide Permitted, Open, Record;
    PermittedExactly(g.books.payments[p].state);
    RecordExactly(g, Some(p), CHAIN_PAID_DB_NOT, q, kind);
    RecordExactly(g, Some(p), DB_PAID_CHAIN_NOT, q, kind);
    var row := g.books.payments[p];
    assert row.(state := row.state) == row;
    assert g.books.payments[p := row] == g.books.payments;
  }

  lemma IdentityExactly(g: Progress, p: PaymentId, c: ChainPayment, q: Option<PaymentId>, kind: FindingKind)
    requires p in g.books.payments
    ensures
      var r, row := ExamineIdentity(g, p, c), g.books.payments[p];
      && r.books.payments == g.books.payments && r.books.audits == g.books.audits
      && OpensJust(g, r, q, kind, q == Some(p) && kind in {AMOUNT_MISMATCH, RECIPIENT_MISMATCH} && Reason(kind, row, Some(c)))
      && r.report == g.report.(found := r.report.found) && r.report.found - g.report.found == |r.books.findings| - |g.books.findings|
  {
    hide Open, Record;
    var row := g.books.payments[p];
    var g1 := if row.amount != c.amount then Record(g, Some(p), AMOUNT_MISMATCH) else g;
    RecordExactly(g, Some(p), AMOUNT_MISMATCH, q, kind);
    RecordExactly(g1, Some(p), RECIPIENT_MISMATCH, q, kind);
  }

  lemma ChangeCounts(p: PaymentId, row: BookRow, cp: Option<ChainPayment>, audits: seq<AuditRow>)
    ensures CountTo(audits + Change(p, row, cp), PAID) - CountTo(audits, PAID) == if Outcome(row, cp) == PAID && row.state != PAID then 1 else 0
    ensures CountTo(audits + Change(p, row, cp), CANCELLED) - CountTo(audits, CANCELLED)
            == if Outcome(row, cp) == CANCELLED && row.state != CANCELLED then 1 else 0
  {
    CountToConcat(audits, Change(p, row, cp), PAID);
    CountToConcat(audits, Change(p, row, cp), CANCELLED);
    var change := Change(p, row, cp);
    assert change != [] ==> change[..0] == [];
  }

  /** All that one examination does. */
  lemma ExaminedExactly(g: Progress, p: PaymentId, cp: Option<ChainPayment>, q: Option<PaymentId>, kind: FindingKind)
    requires p in g.books.payments
    ensures
      var r, row := ExaminePayment(g, p, cp), g.books.payments[p];
      && r.books.payments == g.books.payments[p := row.(state := Outcome(row, cp))]
      && r.books.audits == g.books.audits + Change(p, row, cp)
      && OpensJust(g, r, q, kind, q == Some(p) && Reason(kind, row, cp))
      && Counted(g, r)
      && r.report.payments == g.report.payments + 1 && r.report.escrows == g.report.escrows && r.report.unreadable == g.report.unreadable
  {
    hide Open, Record, ExamineSettlement, ExamineIdentity, CountTo;
    var g0, row := g.(report := g.report.(payments := g.report.payments + 1)), g.books.payments[p];
    ChangeCounts(p, row, cp, g.books.audits);
    match cp {
      case None =>
        RecordExactly(g0, Some(p), MISSING_ON_CHAIN, q, kind);
        assert g.books.payments[p := row.(state := row.state)] == g.books.payments && g.books.audits + [] == g.books.audits;
      case Some(c) =>
        IdentityExactly(g0, p, c, q, kind);
        SettlementExactly(ExamineIdentity(g0, p, c), p, c, q, kind);
        ReasonsSplit(row, c, kind);
    }
  }

  lemma ReasonsSplit(row: BookRow, c: ChainPayment, kind: FindingKind)
    ensures Reason(kind, row, Some(c)) ==> kind in {AMOUNT_MISMATCH, RECIPIENT_MISMATCH} || kind in {CHAIN_PAID_DB_NOT, DB_PAID_CHAIN_NOT}
  {
  }

  /** The chain's payment at a slot is the last one listed there. */
  lemma {:induction false} AtIndexExactly(chain: seq<ChainPayment>, index: nat)
    ensures AtIndex(chain, index) == None <==> forall i :: 0 <= i < |chain| ==> chain[i].index != index
    ensures AtIndex(chain, index).Some? ==>
      exists i :: 0 <= i < |chain| && AtIndex(chain, index) == Some(chain[i]) && chain[i].index == index
                  && forall j :: i < j < |chain| ==> chain[j].index != index
  {
    if chain != [] {
      var n := |chain| - 1;
      AtIndexExactly(chain[..n], index);
      if chain[n].index == index {
        assert AtIndex(chain, index) == Some(chain[n]);
      } else if AtIndex(chain, index).Some? {
        var i :| 0 <= i < n && AtIndex(chain[..n], index) == Some(chain[..n][i]) && chain[..n][i].index == index
                 && forall j :: i < j < n ==> chain[..n][j].index != index;
        forall j | i < j < |chain| ensures chain[j].index != index {
          if j < n { assert chain[..n][j] == chain[j]; }
        }
        assert AtIndex(chain, index) == Some(chain[i]);
      } else {
        forall i | 0 <= i < |chain| ensures chain[i].index != index {
          if i < n { assert chain[..n][i] == chain[i]; }
        }
      }
    }
  }

  // ----- many payments -----

  /** Why a finding about `q` is open after these payments were examined against this chain. */
  ghost predicate AnyReason(b: Books, payments: seq<PaymentId>, chain: seq<ChainPayment>, q: Option<PaymentId>, kind: FindingKind) {
    q.Some? && q.value in payments && q.value in b.payments && Reason(kind, b.payments[q.value], OnChain(b, q.value, chain))
  }

  /** A payment after the examination, and its trail. */
  ghost predicate EndsAs(b: Books, b': Books, p: PaymentId, cp: Option<ChainPayment>) {
    && p in b.payments && p in b'.payments
    && b'.payments[p] == b.payments[p].(state := Outcome(b.payments[p], cp))
    && TrailOf(b'.audits, p) == TrailOf(b.audits, p) + Change(p, b.payments[p], cp)
  }

  ghost predicate Untouched(b: Books, b': Books, p: PaymentId) {
    p in b.payments && p in b'.payments && b'.payments[p] == b.payments[p] && TrailOf(b'.audits, p) == TrailOf(b.audits, p)
  }

  lemma CountedTrans(f: Progress, g: Progress, h: Progress)
    requires Counted(f, g) && Counted(g, h)
    ensures Counted(f, h)
  {
  }

  lemma ChangeTrail(p: PaymentId, row: BookRow, cp: Option<ChainPayment>, other: PaymentId)
    ensures TrailOf(Change(p, row, cp), other) == if p == other then Change(p, row, cp) else []
  {
    var change := Change(p, row, cp);
    assert change != [] ==> change[..0] == [];
  }

  lemma ExaminedEnds(g: Progress, p: PaymentId, cp: Option<ChainPayment>, other: PaymentId)
    requires p in g.books.payments && other in g.books.payments
    ensures
      var r := ExaminePayment(g, p, cp);
      if other == p then EndsAs(g.books, r.books, p, cp) else Untouched(g.books, r.books, other)
  {
    hide ExaminePayment, Open, CountTo, Change, Outcome;
    ExaminedExactly(g, p, cp, None, MISSING_ON_CHAIN);
    TrailOfConcat(g.books.audits, Change(p, g.books.payments[p], cp), other);
    ChangeTrail(p, g.books.payments[p], cp, other);
  }

  lemma {:induction false} PaymentsExactly(g: Progress, payments: seq<PaymentId>, chain: seq<ChainPayment>, q: Option<PaymentId>, kind: FindingKind)
    requires Listed(g.books, payments) && forall i, j :: 0 <= i < j < |payments| ==> payments[i] != payments[j]
    ensures
      var r := ExaminePayments(g, payments, chain);
      && OpensJust(g, r, q, kind, AnyReason(g.books, payments, chain, q, kind))
      && Counted(g, r)
      && r.report.payments == g.report.payments + |payments| && r.report.escrows == g.report.escrows && r.report.unreadable == g.report.unreadable
      && forall p :: p in g.books.payments ==>
           if p in payments then EndsAs(g.books, r.books, p, OnChain(g.books, p, chain)) else Untouched(g.books, r.books, p)
  {
    hide ExaminePayment, Open, CountTo, Change, Outcome, TrailOf, Reason;
    if payments != [] {
      var n, last := |payments| - 1, payments[|payments| - 1];
      PaymentsExactly(g, payments[..n], chain, q, kind);
      var before := ExaminePayments(g, payments[..n], chain);
      assert last !in payments[..n] && Untouched(g.books, before.books, last);
      var cp := OnChain(before.books, last, chain);
      assert cp == OnChain(g.books, last, chain) by { hide *; SameSlot(g.books, before.books, last, chain); }
      ExaminedExactly(before, last, cp, q, kind);
      assert payments == payments[..n] + [last];
      forall p | p in g.books.payments
        ensures
          var r := ExaminePayments(g, payments, chain);
          if p in payments then EndsAs(g.books, r.books, p, OnChain(g.books, p, chain)) else Untouched(g.books, r.books, p)
      {
        ExaminedEnds(before, last, cp, p);
      }
    }
  }

  lemma SameSlot(b: Books, b': Books, p: PaymentId, chain: seq<ChainPayment>)
    requires p in b.payments && p in b'.payments && b'.payments[p].slot == b.payments[p].slot
    ensures OnChain(b', p, chain) == OnChain(b, p, chain)
  {
  }

  // ----- whole runs -----

  /** Some slot on-chain has no payment row. */
  ghost predicate Orphaned(b: Books, payments: seq<PaymentId>, chain: seq<ChainPayment>) {
    exists c :: c in chain && !Linked(b, payments, c.index)
  }

  lemma {:induction false} SlotsExactly(g: Progress, payments: seq<PaymentId>, chain: seq<ChainPayment>, q: Option<PaymentId>, kind: FindingKind)
    ensures
      var r := ExamineSlots(g, payments, chain);
      && OpensJust(g, r, q, kind, q == None && kind == ORPHAN_ON_CHAIN && Orphaned(g.books, payments, chain))
      && r.books.payments == g.books.payments && r.books.audits == g.books.audits
      && r.report == g.report.(found := r.report.found) && r.report.found - g.report.found == |r.books.findings| - |g.books.findings|
  {
    hide Open, Record;
    if chain != [] {
      var n := |chain| - 1;
      SlotsExactly(g, payments, chain[..n], q, kind);
      var before := ExamineSlots(g, payments, chain[..n]);
      RecordExactly(before, None, ORPHAN_ON_CHAIN, q, kind);
      assert Linked(before.books, payments, chain[n].index) == Linked(g.books, payments, chain[n].index);
      assert chain == chain[..n] + [chain[n]];
    }
  }

  /** Why a finding is open after this escrow was examined. */
  ghost predicate EscrowReason(b: Books, e: EscrowRecord, live: ChainReads, q: Option<PaymentId>, kind: FindingKind) {
    if e.id !in live then q == None && kind == MISSING_ON_CHAIN
    else
      || (q == None && kind == ORPHAN_ON_CHAIN && Orphaned(b, e.payments, live[e.id]))
      || AnyReason(b, e.payments, live[e.id], q, kind)
  }

  predicate Examines(e: EscrowRecord, live: ChainReads, p: PaymentId) {
    e.id in live && p in e.payments
  }

  lemma EscrowExactly(g: Progress, e: EscrowRecord, live: ChainReads, q: Option<PaymentId>, kind: FindingKind)
    requires Listed(g.books, e.payments) && forall i, j :: 0 <= i < j < |e.payments| ==> e.payments[i] != e.payments[j]
    ensures
      var r := ExamineEscrow(g, e, live);
      && OpensJust(g, r, q, kind, EscrowReason(g.books, e, live, q, kind))
      && Counted(g, r) && r.report.escrows == g.report.escrows + 1
      && r.report.unreadable == g.report.unreadable + (if e.id in live then 0 else 1)
      && r.report.payments == g.report.payments + (if e.id in live then |e.payments| else 0)
      && forall p :: p in g.books.payments ==>
           if Examines(e, live, p) then EndsAs(g.books, r.books, p, OnChain(g.books, p, live[e.id])) else Untouched(g.books, r.books, p)
  {
    hide Open, Record, ExaminePayments, ExamineSlots, CountTo, TrailOf, Reason, Change, Outcome, Orphaned;
    var g0 := g.(report := g.report.(escrows := g.report.escrows + 1));
    if e.id !in live {
      RecordExactly(g0.(report := g0.report.(unreadable := g0.report.unreadable + 1)), None, MISSING_ON_CHAIN, q, kind);
    } else {
      SlotsExactly(g0, e.payments, live[e.id], q, kind);
      var seen := ExamineSlots(g0, e.payments, live[e.id]);
      PaymentsExactly(seen, e.payments, live[e.id], q, kind);
      forall p | p in g.books.payments ensures OnChain(seen.books, p, live[e.id]) == OnChain(g.books, p, live[e.id]) {
        SameSlot(g.books, seen.books, p, live[e.id]);
      }
    }
  }

  /** Why a finding is open after the run. */
  ghost predicate RunReason(b: Books, escrows: seq<EscrowRecord>, live: ChainReads, q: Option<PaymentId>, kind: FindingKind) {
    exists m :: 0 <= m < |escrows| && EscrowReason(b, escrows[m], live, q, kind)
  }

  function Unreadable(escrows: seq<EscrowRecord>, live: ChainReads): nat {
    if escrows == [] then 0
    else Unreadable(escrows[..|escrows| - 1], live) + if escrows[|escrows| - 1].id in live then 0 else 1
  }

  function LookedAt(escrows: seq<EscrowRecord>, live: ChainReads): nat {
    if escrows == [] then 0
    else
      var last := escrows[|escrows| - 1];
      LookedAt(escrows[..|escrows| - 1], live) + if last.id in live then |last.payments| else 0
  }

  /** What holds of a payment after the run: examined by the escrow that lists it, if that could be read, or not at all. */
  ghost predicate RunEnds(b: Books, b': Books, escrows: seq<EscrowRecord>, live: ChainReads, p: PaymentId) {
    && p in b.payments
    && (forall m :: 0 <= m < |escrows| && Examines(escrows[m], live, p) ==> EndsAs(b, b', p, OnChain(b, p, live[escrows[m].id])))
    && ((forall m :: 0 <= m < |escrows| ==> !Examines(escrows[m], live, p)) ==> Untouched(b, b', p))
  }

  lemma SameReason(b: Books, b': Books, e: EscrowRecord, live: ChainReads, q: Option<PaymentId>, kind: FindingKind)
    requires Listed(b, e.payments) && Listed(b', e.payments) && forall p :: p in e.payments ==> b'.payments[p] == b.payments[p]
    ensures EscrowReason(b', e, live, q, kind) == EscrowReason(b, e, live, q, kind)
  {
    hide Reason;
    if e.id in live {
      forall p | p in e.payments ensures OnChain(b', p, live[e.id]) == OnChain(b, p, live[e.id]) {
        SameSlot(b, b', p, live[e.id]);
      }
      forall index: nat ensures Linked(b', e.payments, index) == Linked(b, e.payments, index) {
        SameLinks(b, b', e.payments, index);
      }
    }
    hide OnChain, Linked;
  }

  lemma SameLinks(b: Books, b': Books, payments: seq<PaymentId>, index: nat)
    requires Listed(b, payments) && Listed(b', payments) && forall p :: p in payments ==> b'.payments[p] == b.payments[p]
    ensures Linked(b', payments, index) == Linked(b, payments, index)
  {
    if Linked(b, payments, index) {
      var i :| 0 <= i < |payments| && payments[i] in b.payments && b.payments[payments[i]].slot == Some(index);
      assert b'.payments[payments[i]].slot == Some(index);
    }
    if Linked(b', payments, index) {
      var i :| 0 <= i < |payments| && payments[i] in b'.payments && b'.payments[payments[i]].slot == Some(index);
      assert b.payments[payments[i]].slot == Some(index);
    }
  }

  lemma {:induction false} FromEnds(g: Progress, escrows: seq<EscrowRecord>, live: ChainReads, p: PaymentId)
    requires Separate(g.books, escrows) && p in g.books.payments
    ensures RunEnds(g.books, ReconcileFrom(g, escrows, live).books, escrows, live, p)
  {
    hide ExamineEscrow, EndsAs, Untouched, Examines, OpensJust, Counted;
    if escrows == [] {
      NothingTouched(g.books, p);
    } else {
      var n, last := |escrows| - 1, escrows[|escrows| - 1];
      FromEnds(g, escrows[..n], live, p);
      var before := ReconcileFrom(g, escrows[..n], live);
      assert last in escrows;
      EscrowExactly(before, last, live, None, MISSING_ON_CHAIN);
      EndsGrow(g.books, before.books, ReconcileFrom(g, escrows, live).books, escrows, live, p);
    }
  }

  lemma NothingTouched(b: Books, p: PaymentId)
    requires p in b.payments
    ensures Untouched(b, b, p)
  {
  }

  /** Nobody examined these payments before their own escrow's turn. */
  lemma NotYet(g: Progress, escrows: seq<EscrowRecord>, live: ChainReads)
    requires escrows != [] && Separate(g.books, escrows)
    ensures
      var n := |escrows| - 1;
      var before := ReconcileFrom(g, escrows[..n], live).books;
      forall p :: p in escrows[n].payments ==> p in g.books.payments && p in before.payments && before.payments[p] == g.books.payments[p]
  {
    var n := |escrows| - 1;
    assert escrows[n] in escrows;
    forall p | p in escrows[n].payments
      ensures p in g.books.payments
      ensures
        var before := ReconcileFrom(g, escrows[..n], live).books;
        p in before.payments && before.payments[p] == g.books.payments[p]
    {
      FromEnds(g, escrows[..n], live, p);
      assert forall m :: 0 <= m < n ==> !Examines(escrows[..n][m], live, p);
    }
  }

  lemma {:induction false} FromReasons(g: Progress, escrows: seq<EscrowRecord>, live: ChainReads, q: Option<PaymentId>, kind: FindingKind)
    requires Separate(g.books, escrows)
    ensures OpensJust(g, ReconcileFrom(g, escrows, live), q, kind, RunReason(g.books, escrows, live, q, kind))
  {
    hide ExamineEscrow, Open, Counted, EndsAs, Untouched, EscrowReason, RunEnds;
    if escrows != [] {
      var n, last := |escrows| - 1, escrows[|escrows| - 1];
      FromReasons(g, escrows[..n], live, q, kind);
      var before := ReconcileFrom(g, escrows[..n], live);
      assert last in escrows;
      NotYet(g, escrows, live);
      SameReason(g.books, before.books, last, live, q, kind);
      EscrowExactly(before, last, live, q, kind);
      ReasonGrows(g.books, escrows, live, q, kind);
      hide RunReason;
    }
  }

  lemma {:induction false} FromCounts(g: Progress, escrows: seq<EscrowRecord>, live: ChainReads)
    requires Separate(g.books, escrows)
    ensures
      var r := ReconcileFrom(g, escrows, live);
      && Counted(g, r)
      && r.report.escrows == g.report.escrows + |escrows| && r.report.unreadable == g.report.unreadable + Unreadable(escrows, live)
      && r.report.payments == g.report.payments + LookedAt(escrows, live)
  {
    hide ExamineEscrow, Counted, EndsAs, Untouched, OpensJust;
    if escrows == [] {
      NothingCounted(g);
    } else {
      var n, last := |escrows| - 1, escrows[|escrows| - 1];
      FromCounts(g, escrows[..n], live);
      var before := ReconcileFrom(g, escrows[..n], live);
      assert last in escrows;
      EscrowExactly(before, last, live, None, MISSING_ON_CHAIN);
      CountedTrans(g, before, ReconcileFrom(g, escrows, live));
    }
  }

  lemma NothingCounted(g: Progress)
    ensures Counted(g, g)
  {
  }

  lemma ReasonGrows(b: Books, escrows: seq<EscrowRecord>, live: ChainReads, q: Option<PaymentId>, kind: FindingKind)
    requires escrows != []
    ensures
      var n := |escrows| - 1;
      RunReason(b, escrows, live, q, kind) <==> RunReason(b, escrows[..n], live, q, kind) || EscrowReason(b, escrows[n], live, q, kind)
  {
    hide EscrowReason;
    var n := |escrows| - 1;
    if RunReason(b, escrows[..n], live, q, kind) {
      var m :| 0 <= m < n && EscrowReason(b, escrows[..n][m], live, q, kind);
      assert EscrowReason(b, escrows[m], live, q, kind);
    }
    if RunReason(b, escrows, live, q, kind) {
      var m :| 0 <= m < |escrows| && EscrowReason(b, escrows[m], live, q, kind);
      if m < n { assert EscrowReason(b, escrows[..n][m], live, q, kind); }
    }
  }

  /** A payment is listed once, so it is examined at most once. */
  lemma EndsGrow(b: Books, mid: Books, b': Books, escrows: seq<EscrowRecord>, live: ChainReads, p: PaymentId)
    requires escrows != [] && Separate(b, escrows) && p in b.payments && RunEnds(b, mid, escrows[..|escrows| - 1], live, p)
    requires
      var last := escrows[|escrows| - 1];
      && p in mid.payments
      && if Examines(last, live, p) then EndsAs(mid, b', p, OnChain(mid, p, live[last.id])) else Untouched(mid, b', p)
    ensures RunEnds(b, b', escrows, live, p)
  {
    hide Outcome, Change, TrailOf, OnChain;
    var n, last := |escrows| - 1, escrows[|escrows| - 1];
    if Examines(last, live, p) {
      forall m | 0 <= m < n ensures !Examines(escrows[m], live, p) {
        assert p !in escrows[m].payments;
      }
      assert forall m :: 0 <= m < n ==> !Examines(escrows[..n][m], live, p);
      assert Untouched(b, mid, p);
      SameSlot(b, mid, p, live[last.id]);
    } else {
      forall m | 0 <= m < |escrows| && Examines(escrows[m], live, p) ensures EndsAs(b, b', p, OnChain(b, p, live[escrows[m].id])) {
        assert Examines(escrows[..n][m], live, p);
        assert EndsAs(b, mid, p, OnChain(b, p, live[escrows[..n][m].id]));
      }
      if forall m :: 0 <= m < |escrows| ==> !Examines(escrows[m], live, p) {
        assert forall m :: 0 <= m < n ==> !Examines(escrows[..n][m], live, p);
      }
    }
  }

  /**
   * A run, to the letter. A finding is open afterwards if and only if it was before or a slot and a row, as they were, give
   * the reason; a payment of a readable escrow ends PAID or CANCELLED exactly when its slot says so and its state permits,
   * with one audit row for the change and none otherwise; every other payment is untouched.
   */
  lemma RunExactly(b: Books, escrows: seq<EscrowRecord>, live: ChainReads, q: Option<PaymentId>, kind: FindingKind, p: PaymentId)
    requires Separate(b, escrows) && p in b.payments
    ensures
      var after := ReconcileAll(b, escrows, live).books;
      && (Open(after.findings, q, kind) <==> Open(b.findings, q, kind) || RunReason(b, escrows, live, q, kind))
      && RunEnds(b, after, escrows, live, p)
  {
    hide ReconcileFrom, Open, RunReason, RunEnds;
    FromReasons(Progress(b, BLANK), escrows, live, q, kind);
    FromEnds(Progress(b, BLANK), escrows, live, p);
  }

  /** And its report is the count of what was looked at, of the findings opened, and of the audit rows to PAID and to CANCELLED. */
  lemma ReportExactly(b: Books, escrows: seq<EscrowRecord>, live: ChainReads)
    requires Separate(b, escrows)
    ensures
      var r := ReconcileAll(b, escrows, live);
      && r.report.escrows == |escrows| && r.report.unreadable == Unreadable(escrows, live) && r.report.payments == LookedAt(escrows, live)
      && r.report.found == |r.books.findings| - |b.findings|
      && r.report.advanced == CountTo(r.books.audits, PAID) - CountTo(b.audits, PAID)
      && r.report.flagged == CountTo(r.books.audits, CANCELLED) - CountTo(b.audits, CANCELLED)
  {
    hide ReconcileFrom, CountTo;
    FromCounts(Progress(b, BLANK), escrows, live);
  }
}
