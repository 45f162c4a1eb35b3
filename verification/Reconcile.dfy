/**
 * Reconciliation against live chain state: record every disagreement once, advance what the chain settled, and leave
 * the rest to an operator.
 */
module Reconcile {
  import opened Prelude
  import opened Escrow
  import opened StateMachine
  import opened Transitions
  import opened Projection

  /** A payment as reconciliation reads it; the slot is empty until the payment is linked on-chain. */
  datatype BookRow = BookRow(slot: Option<nat>, recipient: Address, amount: int, state: PaymentState)

  datatype Issue = Issue(payment: Option<PaymentId>, kind: FindingKind, resolved: bool)

  /** One organization's payments, findings and audit rows. */
  datatype Books = Books(payments: map<PaymentId, BookRow>, findings: seq<Issue>, audits: seq<AuditRow>)

  datatype Report = Report(escrows: nat, payments: nat, found: nat, advanced: nat, flagged: nat, unreadable: nat)

  datatype Progress = Progress(books: Books, report: Report)

  datatype ChainPayment = ChainPayment(index: nat, worker: Address, amount: int, status: PaymentStatus)

  /** An escrow with its linked payments, in slot order. */
  datatype EscrowRecord = EscrowRecord(id: nat, payments: seq<PaymentId>)

  /** The escrows the chain could be read for. */
  type ChainReads = map<nat, seq<ChainPayment>>

  const RECONCILER := Actor(Reconciler, None)

  // ----- the steps -----

  /** An unresolved finding of this kind naming this payment, or naming none. */
  predicate Open(findings: seq<Issue>, payment: Option<PaymentId>, kind: FindingKind) {
    exists i :: 0 <= i < |findings| && findings[i] == Issue(payment, kind, false)
  }

  function Record(g: Progress, payment: Option<PaymentId>, kind: FindingKind): Progress {
    if Open(g.books.findings, payment, kind) then g
    else Progress(g.books.(findings := g.books.findings + [Issue(payment, kind, false)]), g.report.(found := g.report.found + 1))
  }

  predicate Permitted(from: PaymentState, to: PaymentState) {
    CheckTransition(from, to, RECONCILER) == Allowed
  }

  function MovedTo(b: Books, p: PaymentId, to: PaymentState): Books
    requires p in b.payments
  {
    b.(payments := b.payments[p := b.payments[p].(state := to)],
       audits := b.audits + [AuditRow(p, b.payments[p].state, to, RECONCILER)])
  }

  function ExamineSettlement(g: Progress, p: PaymentId, c: ChainPayment): Progress
    requires p in g.books.payments
  {
    var state := g.books.payments[p].state;
    if c.status == Finalized && state != PAID then
      if Permitted(state, PAID)
      then Progress(MovedTo(g.books, p, PAID), g.report.(advanced := g.report.advanced + 1))
      else Record(g, Some(p), CHAIN_PAID_DB_NOT)
    else if c.status != Finalized && state == PAID then
      var noted := Record(g, Some(p), DB_PAID_CHAIN_NOT);
      if Permitted(PAID, RECONCILIATION_REQUIRED)
      then Progress(MovedTo(noted.books, p, RECONCILIATION_REQUIRED), noted.report.(flagged := noted.report.flagged + 1))
      else noted
    else if c.status == Cancelled && state != CANCELLED && Permitted(state, CANCELLED) then
      Progress(MovedTo(g.books, p, CANCELLED), g.report.(flagged := g.report.flagged + 1))
    else g
  }

  /** The financial identity must match whatever the state. */
  function ExamineIdentity(g: Progress, p: PaymentId, c: ChainPayment): (r: Progress)
    requires p in g.books.payments
    ensures r.books.payments == g.books.payments
  {
    var row := g.books.payments[p];
    var g1 := if row.amount != c.amount then Record(g, Some(p), AMOUNT_MISMATCH) else g;
    if row.recipient != c.worker then Record(g1, Some(p), RECIPIENT_MISMATCH) else g1
  }

  function ExaminePayment(g: Progress, p: PaymentId, cp: Option<ChainPayment>): (r: Progress)
    requires p in g.books.payments
    ensures r.books.payments.Keys == g.books.payments.Keys
  {
    var g := g.(report := g.report.(payments := g.report.payments + 1));
    match cp
    case None => Record(g, Some(p), MISSING_ON_CHAIN)
    case Some(c) =>
      ExamineSettlement(ExamineIdentity(g, p, c), p, c)
  }

  /** The chain's payment at an index; the last one listed wins. */
  function AtIndex(chain: seq<ChainPayment>, index: nat): Option<ChainPayment> {
    if chain == [] then None
    else if chain[|chain| - 1].index == index then Some(chain[|chain| - 1])
    else AtIndex(chain[..|chain| - 1], index)
  }

  function OnChain(b: Books, p: PaymentId, chain: seq<ChainPayment>): Option<ChainPayment>
    requires p in b.payments
  {
    match b.payments[p].slot
    case None => None
    case Some(i) => AtIndex(chain, i)
  }

  predicate Linked(b: Books, payments: seq<PaymentId>, index: nat) {
    exists i :: 0 <= i < |payments| && payments[i] in b.payments && b.payments[payments[i]].slot == Some(index)
  }

  /** A finding for chain slots that no payment row shows. */
  function ExamineSlots(g: Progress, payments: seq<PaymentId>, chain: seq<ChainPayment>): Progress {
    if chain == [] then g
    else
      var before, c := ExamineSlots(g, payments, chain[..|chain| - 1]), chain[|chain| - 1];
      if Linked(before.books, payments, c.index) then before else Record(before, None, ORPHAN_ON_CHAIN)
  }

  ghost predicate Listed(b: Books, payments: seq<PaymentId>) {
    forall p :: p in payments ==> p in b.payments
  }

  function ExaminePayments(g: Progress, payments: seq<PaymentId>, chain: seq<ChainPayment>): (r: Progress)
    requires Listed(g.books, payments)
    ensures r.books.payments.Keys == g.books.payments.Keys
  {
    if payments == [] then g
    else
      var before, p := ExaminePayments(g, payments[..|payments| - 1], chain), payments[|payments| - 1];
      ExaminePayment(before, p, OnChain(before.books, p, chain))
  }

  lemma SlotsOnlyRecord(g: Progress, payments: seq<PaymentId>, chain: seq<ChainPayment>)
    ensures ExamineSlots(g, payments, chain).books.payments == g.books.payments
  {
  }

  function ExamineEscrow(g: Progress, e: EscrowRecord, live: ChainReads): (r: Progress)
    requires Listed(g.books, e.payments)
    ensures r.books.payments.Keys == g.books.payments.Keys
  {
    var g := g.(report := g.report.(escrows := g.report.escrows + 1));
    if e.id !in live
    then Record(g.(report := g.report.(unreadable := g.report.unreadable + 1)), None, MISSING_ON_CHAIN)
    else
      SlotsOnlyRecord(g, e.payments, live[e.id]);
      ExaminePayments(ExamineSlots(g, e.payments, live[e.id]), e.payments, live[e.id])
  }

  ghost predicate AllListed(b: Books, escrows: seq<EscrowRecord>) {
    forall e :: e in escrows ==> Listed(b, e.payments)
  }

  function ReconcileFrom(g: Progress, escrows: seq<EscrowRecord>, live: ChainReads): (r: Progress)
    requires AllListed(g.books, escrows)
    ensures r.books.payments.Keys == g.books.payments.Keys
  {
    if escrows == [] then g
    else
      var last := escrows[|escrows| - 1];
      assert last in escrows;
      ExamineEscrow(ReconcileFrom(g, escrows[..|escrows| - 1], live), last, live)
  }

  const BLANK := Report(0, 0, 0, 0, 0, 0)

  function ReconcileAll(b: Books, escrows: seq<EscrowRecord>, live: ChainReads): Progress
    requires AllListed(b, escrows)
  {
    ReconcileFrom(Progress(b, BLANK), escrows, live)
  }

  // ----- settled disagreements -----

  /** PAID is terminal, so the move to RECONCILIATION_REQUIRED is always refused and the finding is the record. */
  lemma PaidStays(to: PaymentState)
    ensures !Permitted(PAID, to)
  {
  }

  /** The recorded amount and payee agree with the chain, or findings say they do not. */
  ghost predicate Identified(b: Books, p: PaymentId, c: ChainPayment)
    requires p in b.payments
  {
    && (b.payments[p].amount != c.amount ==> Open(b.findings, Some(p), AMOUNT_MISMATCH))
    && (b.payments[p].recipient != c.worker ==> Open(b.findings, Some(p), RECIPIENT_MISMATCH))
  }

  /** Neither the settlement nor the cancellation of this payment leaves anything to do. */
  ghost predicate Adjudicated(b: Books, p: PaymentId, c: ChainPayment)
    requires p in b.payments
  {
    var state := b.payments[p].state;
    && (c.status == Finalized && state != PAID ==> !Permitted(state, PAID) && Open(b.findings, Some(p), CHAIN_PAID_DB_NOT))
    && (c.status != Finalized && state == PAID ==> Open(b.findings, Some(p), DB_PAID_CHAIN_NOT))
    && (c.status == Cancelled && state != PAID && state != CANCELLED ==> !Permitted(state, CANCELLED))
  }

  /** Nothing is left to record or move for this payment. */
  ghost predicate Quiet(b: Books, p: PaymentId, cp: Option<ChainPayment>) {
    && p in b.payments
    && match cp
       case None => Open(b.findings, Some(p), MISSING_ON_CHAIN)
       case Some(c) => Identified(b, p, c) && Adjudicated(b, p, c)
  }

  lemma OpenStays(findings: seq<Issue>, more: seq<Issue>, payment: Option<PaymentId>, kind: FindingKind)
    requires findings <= more && Open(findings, payment, kind)
    ensures Open(more, payment, kind)
  {
    var i :| 0 <= i < |findings| && findings[i] == Issue(payment, kind, false);
    assert more[i] == findings[i];
  }

  lemma RecordOpens(g: Progress, payment: Option<PaymentId>, kind: FindingKind)
    ensures Open(Record(g, payment, kind).books.findings, payment, kind)
    ensures g.books.findings <= Record(g, payment, kind).books.findings
  {
    var g' := Record(g, payment, kind);
    if !Open(g.books.findings, payment, kind) {
      assert g'.books.findings[|g.books.findings|] == Issue(payment, kind, false);
    }
  }

  /** Only this payment's state, the findings and the audit rows can have changed. */
  ghost predicate Touches(b: Books, b': Books, p: PaymentId) {
    && p in b.payments && p in b'.payments && b.findings <= b'.findings
    && b'.payments == b.payments[p := b.payments[p].(state := b'.payments[p].state)]
  }

  lemma IdentityRecorded(g: Progress, p: PaymentId, c: ChainPayment)
    requires p in g.books.payments
    ensures
      var g2 := ExamineIdentity(g, p, c);
      && g2.books.payments == g.books.payments && g2.books.audits == g.books.audits
      && g.books.findings <= g2.books.findings && Identified(g2.books, p, c)
  {
    hide Open;
    var row := g.books.payments[p];
    var g1 := if row.amount != c.amount then Record(g, Some(p), AMOUNT_MISMATCH) else g;
    var g2 := if row.recipient != c.worker then Record(g1, Some(p), RECIPIENT_MISMATCH) else g1;
    RecordOpens(g, Some(p), AMOUNT_MISMATCH);
    RecordOpens(g1, Some(p), RECIPIENT_MISMATCH);
    if row.amount != c.amount {
      OpenStays(g1.books.findings, g2.books.findings, Some(p), AMOUNT_MISMATCH);
    }
  }

  lemma SettlementAdjudicates(g: Progress, p: PaymentId, c: ChainPayment)
    requires p in g.books.payments
    ensures
      var r := ExamineSettlement(g, p, c);
      Touches(g.books, r.books, p) && Adjudicated(r.books, p, c)
  {
    hide Permitted, Open;
    PaidStays(RECONCILIATION_REQUIRED);
    RecordOpens(g, Some(p), CHAIN_PAID_DB_NOT);
    RecordOpens(g, Some(p), DB_PAID_CHAIN_NOT);
  }

  lemma IdentifiedStays(b: Books, b': Books, p: PaymentId, c: ChainPayment)
    requires Touches(b, b', p) && Identified(b, p, c)
    ensures Identified(b', p, c)
  {
    hide Open;
    forall kind | Open(b.findings, Some(p), kind) ensures Open(b'.findings, Some(p), kind) {
      OpenStays(b.findings, b'.findings, Some(p), kind);
    }
  }

  lemma ExamineQuiets(g: Progress, p: PaymentId, cp: Option<ChainPayment>)
    requires p in g.books.payments
    ensures var r := ExaminePayment(g, p, cp); Quiet(r.books, p, cp) && Touches(g.books, r.books, p)
  {
    hide Permitted, Open, Identified, Adjudicated, ExamineSettlement, ExamineIdentity;
    var g0 := g.(report := g.report.(payments := g.report.payments + 1));
    match cp {
      case None => RecordOpens(g0, Some(p), MISSING_ON_CHAIN);
      case Some(c) =>
        IdentityRecorded(g0, p, c);
        var g2 := ExamineIdentity(g0, p, c);
        hide Record;
        SettlementAdjudicates(g2, p, c);
        IdentifiedStays(g2.books, ExamineSettlement(g2, p, c).books, p, c);
    }
  }

  lemma QuietStays(b: Books, b': Books, p: PaymentId, cp: Option<ChainPayment>)
    requires Quiet(b, p, cp) && p in b'.payments && b'.payments[p] == b.payments[p] && b.findings <= b'.findings
    ensures Quiet(b', p, cp)
  {
    hide Permitted, Open;
    forall kind | Open(b.findings, Some(p), kind) ensures Open(b'.findings, Some(p), kind) {
      OpenStays(b.findings, b'.findings, Some(p), kind);
    }
  }

  /** Examining a quiet payment again changes nothing but the count of payments looked at. */
  lemma QuietIsDone(g: Progress, p: PaymentId, cp: Option<ChainPayment>)
    requires Quiet(g.books, p, cp)
    ensures ExaminePayment(g, p, cp) == g.(report := g.report.(payments := g.report.payments + 1))
  {
    PaidStays(RECONCILIATION_REQUIRED);
    hide Permitted, Open;
  }

  // ----- whole runs -----

  /** The payments of these escrows are stored, and none appears twice. */
  ghost predicate Separate(b: Books, escrows: seq<EscrowRecord>) {
    && AllListed(b, escrows)
    && (forall e :: e in escrows ==> forall i, j :: 0 <= i < j < |e.payments| ==> e.payments[i] != e.payments[j])
    && (forall m, n :: 0 <= m < n < |escrows| ==> forall p :: p in escrows[m].payments ==> p !in escrows[n].payments)
  }

  /** Everything about this escrow has been recorded or moved. */
  ghost predicate QuietEscrow(b: Books, e: EscrowRecord, live: ChainReads) {
    && Listed(b, e.payments)
    && if e.id !in live then Open(b.findings, None, MISSING_ON_CHAIN)
       else
         && (forall c :: c in live[e.id] && !Linked(b, e.payments, c.index) ==> Open(b.findings, None, ORPHAN_ON_CHAIN))
         && (forall p :: p in e.payments ==> Quiet(b, p, OnChain(b, p, live[e.id])))
  }

  /** Rows keep everything but their state, and findings only accumulate. */
  ghost predicate Grows(b: Books, b': Books) {
    && b'.payments.Keys == b.payments.Keys && b.findings <= b'.findings
    && forall p :: p in b.payments ==> b'.payments[p] == b.payments[p].(state := b'.payments[p].state)
  }

  lemma GrowsKeeps(b: Books, b': Books, payments: seq<PaymentId>, chain: seq<ChainPayment>)
    requires Grows(b, b')
    ensures forall index: nat :: Linked(b', payments, index) == Linked(b, payments, index)
    ensures forall p :: p in b.payments ==> OnChain(b', p, chain) == OnChain(b, p, chain)
  {
    forall index: nat ensures Linked(b', payments, index) == Linked(b, payments, index) {
      if Linked(b, payments, index) {
        var i :| 0 <= i < |payments| && payments[i] in b.payments && b.payments[payments[i]].slot == Some(index);
        assert b'.payments[payments[i]].slot == Some(index);
      }
      if Linked(b', payments, index) {
        var i :| 0 <= i < |payments| && payments[i] in b'.payments && b'.payments[payments[i]].slot == Some(index);
        assert b.payments[payments[i]].slot == Some(index);
      }
    }
  }

  lemma {:induction false} SlotsRecorded(g: Progress, payments: seq<PaymentId>, chain: seq<ChainPayment>)
    ensures
      var r := ExamineSlots(g, payments, chain);
      && r.books.payments == g.books.payments && g.books.findings <= r.books.findings
      && forall c :: c in chain && !Linked(g.books, payments, c.index) ==> Open(r.books.findings, None, ORPHAN_ON_CHAIN)
  {
    hide Open;
    if chain != [] {
      var n := |chain| - 1;
      SlotsRecorded(g, payments, chain[..n]);
      var before := ExamineSlots(g, payments, chain[..n]);
      RecordOpens(before, None, ORPHAN_ON_CHAIN);
      assert Linked(before.books, payments, chain[n].index) == Linked(g.books, payments, chain[n].index);
      forall c | c in chain && !Linked(g.books, payments, c.index)
        ensures Open(ExamineSlots(g, payments, chain).books.findings, None, ORPHAN_ON_CHAIN)
      {
        if c != chain[n] || Linked(g.books, payments, chain[n].index) {
          assert c in chain[..n];
          OpenStays(before.books.findings, ExamineSlots(g, payments, chain).books.findings, None, ORPHAN_ON_CHAIN);
        }
      }
    }
  }

  lemma {:induction false} PaymentsQuieted(g: Progress, payments: seq<PaymentId>, chain: seq<ChainPayment>)
    requires Listed(g.books, payments) && forall i, j :: 0 <= i < j < |payments| ==> payments[i] != payments[j]
    ensures
      var r := ExaminePayments(g, payments, chain);
      && Grows(g.books, r.books)
      && (forall p :: p in payments ==> Quiet(r.books, p, OnChain(r.books, p, chain)))
      && (forall q :: q in g.books.payments && q !in payments ==> r.books.payments[q] == g.books.payments[q])
  {
    hide Quiet, ExaminePayment;
    if payments != [] {
      var n, last := |payments| - 1, payments[|payments| - 1];
      PaymentsQuieted(g, payments[..n], chain);
      var before, r := ExaminePayments(g, payments[..n], chain), ExaminePayments(g, payments, chain);
      ExamineQuiets(before, last, OnChain(before.books, last, chain));
      forall p | p in payments ensures Quiet(r.books, p, OnChain(r.books, p, chain)) {
        if p != last {
          assert p in payments[..n];
          QuietStays(before.books, r.books, p, OnChain(before.books, p, chain));
        }
      }
    }
  }

  lemma EscrowQuieted(g: Progress, e: EscrowRecord, live: ChainReads)
    requires Listed(g.books, e.payments) && forall i, j :: 0 <= i < j < |e.payments| ==> e.payments[i] != e.payments[j]
    ensures
      var r := ExamineEscrow(g, e, live);
      && Grows(g.books, r.books) && QuietEscrow(r.books, e, live)
      && (forall q :: q in g.books.payments && q !in e.payments ==> r.books.payments[q] == g.books.payments[q])
  {
    hide Quiet, Open, ExaminePayments, ExamineSlots;
    var g0 := g.(report := g.report.(escrows := g.report.escrows + 1));
    if e.id !in live {
      RecordOpens(g0.(report := g0.report.(unreadable := g0.report.unreadable + 1)), None, MISSING_ON_CHAIN);
    } else {
      var chain := live[e.id];
      SlotsRecorded(g0, e.payments, chain);
      var seen := ExamineSlots(g0, e.payments, chain);
      PaymentsQuieted(seen, e.payments, chain);
      var r := ExaminePayments(seen, e.payments, chain);
      GrowsKeeps(g.books, r.books, e.payments, chain);
      if Open(seen.books.findings, None, ORPHAN_ON_CHAIN) {
        OpenStays(seen.books.findings, r.books.findings, None, ORPHAN_ON_CHAIN);
      }
    }
  }

  lemma QuietEscrowStays(b: Books, b': Books, e: EscrowRecord, live: ChainReads)
    requires QuietEscrow(b, e, live) && Grows(b, b') && forall p :: p in e.payments ==> b'.payments[p] == b.payments[p]
    ensures QuietEscrow(b', e, live)
  {
    hide Quiet, Open, Linked;
    forall kind | Open(b.findings, None, kind) ensures Open(b'.findings, None, kind) {
      OpenStays(b.findings, b'.findings, None, kind);
    }
    if e.id in live {
      GrowsKeeps(b, b', e.payments, live[e.id]);
      forall p | p in e.payments ensures Quiet(b', p, OnChain(b', p, live[e.id])) {
        QuietStays(b, b', p, OnChain(b, p, live[e.id]));
      }
    }
  }

  lemma {:induction false} AllQuieted(g: Progress, escrows: seq<EscrowRecord>, live: ChainReads)
    requires Separate(g.books, escrows)
    ensures
      var r := ReconcileFrom(g, escrows, live);
      && Grows(g.books, r.books)
      && (forall e :: e in escrows ==> QuietEscrow(r.books, e, live))
      && (forall q :: q in g.books.payments && (forall e :: e in escrows ==> q !in e.payments) ==> r.books.payments[q] == g.books.payments[q])
  {
    hide QuietEscrow, ExamineEscrow;
    if escrows != [] {
      var n, last := |escrows| - 1, escrows[|escrows| - 1];
      AllQuieted(g, escrows[..n], live);
      var before, r := ReconcileFrom(g, escrows[..n], live), ReconcileFrom(g, escrows, live);
      EscrowQuieted(before, last, live);
      forall e | e in escrows ensures QuietEscrow(r.books, e, live) {
        if e != last || e in escrows[..n] {
          var m :| 0 <= m < n && escrows[m] == e;
          QuietEscrowStays(before.books, r.books, e, live);
        }
      }
    }
  }

  /**
   * No silent disagreement: after a run, every examined payment of a readable escrow is PAID exactly when its slot is
   * finalized, or an unresolved finding naming it says otherwise; a payment with no slot on-chain is reported too.
   */
  lemma NoSilentDisagreement(b: Books, escrows: seq<EscrowRecord>, live: ChainReads, e: EscrowRecord, p: PaymentId)
    requires Separate(b, escrows) && e in escrows && p in e.payments && e.id in live
    ensures
      var after := ReconcileAll(b, escrows, live).books;
      && p in b.payments && p in after.payments
      && match OnChain(b, p, live[e.id])
         case None => Open(after.findings, Some(p), MISSING_ON_CHAIN)
         case Some(c) =>
           || (after.payments[p].state == PAID <==> c.status == Finalized)
           || Open(after.findings, Some(p), CHAIN_PAID_DB_NOT)
           || Open(after.findings, Some(p), DB_PAID_CHAIN_NOT)
  {
    AllQuieted(Progress(b, BLANK), escrows, live);
    var after := ReconcileAll(b, escrows, live).books;
    GrowsKeeps(b, after, e.payments, live[e.id]);
    assert QuietEscrow(after, e, live) && Quiet(after, p, OnChain(after, p, live[e.id]));
    hide ReconcileFrom, Permitted, Open;
  }

  lemma {:induction false} SlotsDone(g: Progress, payments: seq<PaymentId>, chain: seq<ChainPayment>)
    requires forall c :: c in chain && !Linked(g.books, payments, c.index) ==> Open(g.books.findings, None, ORPHAN_ON_CHAIN)
    ensures ExamineSlots(g, payments, chain) == g
  {
    hide Open, Linked;
    if chain != [] {
      SlotsDone(g, payments, chain[..|chain| - 1]);
      assert chain[|chain| - 1] in chain;
    }
  }

  lemma {:induction false} PaymentsDone(g: Progress, payments: seq<PaymentId>, chain: seq<ChainPayment>)
    requires Listed(g.books, payments) && forall p :: p in payments ==> Quiet(g.books, p, OnChain(g.books, p, chain))
    ensures ExaminePayments(g, payments, chain) == g.(report := g.report.(payments := g.report.payments + |payments|))
  {
    hide Quiet, ExaminePayment;
    if payments != [] {
      var n, last := |payments| - 1, payments[|payments| - 1];
      PaymentsDone(g, payments[..n], chain);
      var before := ExaminePayments(g, payments[..n], chain);
      QuietIsDone(before, last, OnChain(before.books, last, chain));
    }
  }

  /** Nothing but the counts of what was looked at. */
  ghost predicate OnlyLooked(g: Progress, r: Progress) {
    r.books == g.books && r.report.found == g.report.found && r.report.advanced == g.report.advanced && r.report.flagged == g.report.flagged
  }

  lemma EscrowDone(g: Progress, e: EscrowRecord, live: ChainReads)
    requires QuietEscrow(g.books, e, live)
    ensures OnlyLooked(g, ExamineEscrow(g, e, live))
  {
    hide Quiet, Open, Linked, ExaminePayments, ExamineSlots;
    if e.id in live {
      var g0 := g.(report := g.report.(escrows := g.report.escrows + 1));
      SlotsDone(g0, e.payments, live[e.id]);
      PaymentsDone(g0, e.payments, live[e.id]);
    }
  }

  lemma {:induction false} AllDone(g: Progress, escrows: seq<EscrowRecord>, live: ChainReads)
    requires AllListed(g.books, escrows) && forall e :: e in escrows ==> QuietEscrow(g.books, e, live)
    ensures OnlyLooked(g, ReconcileFrom(g, escrows, live))
  {
    hide QuietEscrow, ExamineEscrow;
    if escrows != [] {
      var n := |escrows| - 1;
      AllDone(g, escrows[..n], live);
      EscrowDone(ReconcileFrom(g, escrows[..n], live), escrows[n], live);
    }
  }

  /** A fixpoint: with the chain unchanged, a second run moves no payment and opens no finding. */
  lemma SecondRunChangesNothing(b: Books, escrows: seq<EscrowRecord>, live: ChainReads)
    requires Separate(b, escrows)
    ensures AllListed(ReconcileAll(b, escrows, live).books, escrows)
    ensures
      var after := ReconcileAll(b, escrows, live).books;
      var again := ReconcileAll(after, escrows, live);
      again.books == after && again.report.found == again.report.advanced == again.report.flagged == 0
  {
    hide QuietEscrow, ReconcileFrom;
    AllQuieted(Progress(b, BLANK), escrows, live);
    AllDone(Progress(ReconcileAll(b, escrows, live).books, BLANK), escrows, live);
  }

  // ----- what a run does to one payment -----

  /** What a run makes of one payment's state. */
  function Verdict(state: PaymentState, status: PaymentStatus): PaymentState {
    if status == Finalized then (if Permitted(state, PAID) then PAID else state)
    else if status == Cancelled && state != PAID && Permitted(state, CANCELLED) then CANCELLED
    else state
  }

  lemma ExamineVerdict(g: Progress, p: PaymentId, c: ChainPayment)
    requires p in g.books.payments
    ensures ExaminePayment(g, p, Some(c)).books.payments[p].state == Verdict(g.books.payments[p].state, c.status)
  {
    PaidStays(RECONCILIATION_REQUIRED);
    hide Open, FindTransition;
  }

  /** The states a settlement seen on-chain can be caught up from. */
  const SETTLEABLE: set<PaymentState> := {READY_TO_SETTLE, SUBMITTING, CONFIRMING, SETTLEMENT_FAILED, RECONCILIATION_REQUIRED}

  /** The states a cancellation seen on-chain can be mirrored from. */
  const MIRRORS_CANCEL: set<PaymentState> :=
    {AWAITING_ORACLE, ORACLE_VERIFIED, AWAITING_MANAGER, AWAITING_FINANCE, READY_TO_SETTLE, RECONCILIATION_REQUIRED}

  /**
   * Exactly when a run ends with the database agreeing: a settlement is caught up from the settleable states only,
   * and a cancellation is mirrored from the mirrored states only; from any other state a cancelled payment keeps its
   * state, and nothing is recorded.
   */
  lemma VerdictExactly(state: PaymentState)
    ensures Verdict(state, Finalized) == PAID <==> state in SETTLEABLE || state == PAID
    ensures Verdict(state, Cancelled) == CANCELLED <==> state in MIRRORS_CANCEL || state == CANCELLED
    ensures forall status :: status != Finalized && status != Cancelled ==> Verdict(state, status) == state
  {
  }

  lemma CancellationIsSilent(g: Progress, p: PaymentId, c: ChainPayment)
    requires p in g.books.payments && c.status == Cancelled
    requires g.books.payments[p].amount == c.amount && g.books.payments[p].recipient == c.worker
    ensures
      var state := g.books.payments[p].state;
      ExaminePayment(g, p, Some(c)).books == g.books
      <==> state !in MIRRORS_CANCEL && (state == PAID ==> Open(g.books.findings, Some(p), DB_PAID_CHAIN_NOT))
  {
    PaidStays(RECONCILIATION_REQUIRED);
    hide Open, FindTransition, Record;
    var state := g.books.payments[p].state;
    VerdictExactly(state);
    ExamineVerdict(g, p, c);
    RecordGrows(g, Some(p), DB_PAID_CHAIN_NOT);
    RecordGrows(g.(report := g.report.(payments := g.report.payments + 1)), Some(p), DB_PAID_CHAIN_NOT);
  }

  lemma RecordGrows(g: Progress, payment: Option<PaymentId>, kind: FindingKind)
    ensures Record(g, payment, kind).books == g.books <==> Open(g.books.findings, payment, kind)
  {
    if !Open(g.books.findings, payment, kind) {
      assert |Record(g, payment, kind).books.findings| == |g.books.findings| + 1;
    }
  }

  // ----- one finding per discrepancy, and per kind of organization-wide discrepancy -----

  function CountOpen(findings: seq<Issue>, payment: Option<PaymentId>, kind: FindingKind): nat {
    if findings == [] then 0
    else
      CountOpen(findings[..|findings| - 1], payment, kind)
      + if findings[|findings| - 1] == Issue(payment, kind, false) then 1 else 0
  }

  lemma {:induction false} OpenCounts(findings: seq<Issue>, payment: Option<PaymentId>, kind: FindingKind)
    ensures Open(findings, payment, kind) <==> CountOpen(findings, payment, kind) > 0
  {
    if findings != [] {
      var n := |findings| - 1;
      OpenCounts(findings[..n], payment, kind);
      if findings[n] == Issue(payment, kind, false) {
        assert Open(findings, payment, kind);
      } else {
        if Open(findings[..n], payment, kind) {
          OpenStays(findings[..n], findings, payment, kind);
        }
        if Open(findings, payment, kind) {
          var i :| 0 <= i < |findings| && findings[i] == Issue(payment, kind, false);
          assert findings[..n][i] == findings[i];
        }
      }
    }
  }

  /** No more unresolved findings of this kind than before, beyond a first. */
  ghost predicate Bounded(g: Progress, r: Progress, payment: Option<PaymentId>, kind: FindingKind) {
    var before, after := CountOpen(g.books.findings, payment, kind), CountOpen(r.books.findings, payment, kind);
    before <= after && after <= Max(before, 1)
  }

  lemma RecordBounded(g: Progress, p: Option<PaymentId>, k: FindingKind, payment: Option<PaymentId>, kind: FindingKind)
    ensures Bounded(g, Record(g, p, k), payment, kind)
  {
    OpenCounts(g.books.findings, p, k);
    if !Open(g.books.findings, p, k) {
      assert (g.books.findings + [Issue(p, k, false)])[..|g.books.findings|] == g.books.findings;
    }
  }

  lemma SettlementBounded(g: Progress, p: PaymentId, c: ChainPayment, payment: Option<PaymentId>, kind: FindingKind)
    requires p in g.books.payments
    ensures Bounded(g, ExamineSettlement(g, p, c), payment, kind)
  {
    hide Record, Permitted, CountOpen;
    PaidStays(RECONCILIATION_REQUIRED);
    RecordBounded(g, Some(p), CHAIN_PAID_DB_NOT, payment, kind);
    RecordBounded(g, Some(p), DB_PAID_CHAIN_NOT, payment, kind);
  }

  lemma BoundedTrans(f: Progress, g: Progress, h: Progress, payment: Option<PaymentId>, kind: FindingKind)
    requires Bounded(f, g, payment, kind) && Bounded(g, h, payment, kind)
    ensures Bounded(f, h, payment, kind)
  {
  }

  lemma SameFindingsBounded(f: Progress, g: Progress, h: Progress, payment: Option<PaymentId>, kind: FindingKind)
    requires f.books.findings == g.books.findings && Bounded(g, h, payment, kind)
    ensures Bounded(f, h, payment, kind)
  {
  }

  lemma ExamineBounded(g: Progress, p: PaymentId, cp: Option<ChainPayment>, payment: Option<PaymentId>, kind: FindingKind)
    requires p in g.books.payments
    ensures Bounded(g, ExaminePayment(g, p, cp), payment, kind)
  {
    hide Bounded, Record, ExamineSettlement, ExamineIdentity;
    var g0 := g.(report := g.report.(payments := g.report.payments + 1));
    match cp {
      case None => RecordBounded(g0, Some(p), MISSING_ON_CHAIN, payment, kind);
      case Some(c) =>
        var g2 := ExamineIdentity(g0, p, c);
        IdentityBounded(g0, p, c, payment, kind);
        SettlementBounded(g2, p, c, payment, kind);
        BoundedTrans(g0, g2, ExamineSettlement(g2, p, c), payment, kind);
    }
    SameFindingsBounded(g, g0, ExaminePayment(g, p, cp), payment, kind);
  }

  lemma IdentityBounded(g: Progress, p: PaymentId, c: ChainPayment, payment: Option<PaymentId>, kind: FindingKind)
    requires p in g.books.payments
    ensures Bounded(g, ExamineIdentity(g, p, c), payment, kind)
  {
    hide CountOpen, Record;
    var g1 := if g.books.payments[p].amount != c.amount then Record(g, Some(p), AMOUNT_MISMATCH) else g;
    RecordBounded(g, Some(p), AMOUNT_MISMATCH, payment, kind);
    RecordBounded(g1, Some(p), RECIPIENT_MISMATCH, payment, kind);
  }

  lemma {:induction false} SlotsBounded(g: Progress, payments: seq<PaymentId>, chain: seq<ChainPayment>, payment: Option<PaymentId>, kind: FindingKind)
    ensures Bounded(g, ExamineSlots(g, payments, chain), payment, kind)
  {
    hide Record, Linked;
    if chain != [] {
      var n := |chain| - 1;
      SlotsBounded(g, payments, chain[..n], payment, kind);
      RecordBounded(ExamineSlots(g, payments, chain[..n]), None, ORPHAN_ON_CHAIN, payment, kind);
    }
  }

  lemma {:induction false} PaymentsBounded(g: Progress, payments: seq<PaymentId>, chain: seq<ChainPayment>, payment: Option<PaymentId>, kind: FindingKind)
    requires Listed(g.books, payments)
    ensures Bounded(g, ExaminePayments(g, payments, chain), payment, kind)
  {
    hide ExaminePayment;
    if payments != [] {
      var n := |payments| - 1;
      PaymentsBounded(g, payments[..n], chain, payment, kind);
      var before := ExaminePayments(g, payments[..n], chain);
      ExamineBounded(before, payments[n], OnChain(before.books, payments[n], chain), payment, kind);
    }
  }

  /**
   * Findings never multiply: a run leaves at most one unresolved finding per payment and kind that had none. As an
   * organization-wide finding names no payment, all orphaned slots of all its escrows share that one.
   */
  lemma {:induction false} FindingsDoNotMultiply(g: Progress, escrows: seq<EscrowRecord>, live: ChainReads, payment: Option<PaymentId>, kind: FindingKind)
    requires AllListed(g.books, escrows)
    ensures Bounded(g, ReconcileFrom(g, escrows, live), payment, kind)
  {
    hide ExaminePayments, ExamineSlots, Record;
    if escrows != [] {
      var n, e := |escrows| - 1, escrows[|escrows| - 1];
      FindingsDoNotMultiply(g, escrows[..n], live, payment, kind);
      var before := ReconcileFrom(g, escrows[..n], live);
      var g0 := before.(report := before.report.(escrows := before.report.escrows + 1));
      assert e in escrows;
      if e.id !in live {
        RecordBounded(g0.(report := g0.report.(unreadable := g0.report.unreadable + 1)), None, MISSING_ON_CHAIN, payment, kind);
      } else {
        SlotsBounded(g0, e.payments, live[e.id], payment, kind);
        SlotsOnlyRecord(g0, e.payments, live[e.id]);
        PaymentsBounded(ExamineSlots(g0, e.payments, live[e.id]), e.payments, live[e.id], payment, kind);
      }
    }
  }

  /** So two orphaned slots are not told apart: one finding stands for both. */
  lemma OrphansShareOneFinding(b: Books, escrows: seq<EscrowRecord>, live: ChainReads)
    requires Separate(b, escrows) && !Open(b.findings, None, ORPHAN_ON_CHAIN)
    requires exists e, c :: e in escrows && e.id in live && c in live[e.id] && !Linked(b, e.payments, c.index)
    ensures CountOpen(ReconcileAll(b, escrows, live).books.findings, None, ORPHAN_ON_CHAIN) == 1
  {
    var e, c :| e in escrows && e.id in live && c in live[e.id] && !Linked(b, e.payments, c.index);
    var after := ReconcileAll(b, escrows, live).books;
    AllQuieted(Progress(b, BLANK), escrows, live);
    GrowsKeeps(b, after, e.payments, live[e.id]);
    FindingsDoNotMultiply(Progress(b, BLANK), escrows, live, None, ORPHAN_ON_CHAIN);
    OpenCounts(b.findings, None, ORPHAN_ON_CHAIN);
    OpenCounts(after.findings, None, ORPHAN_ON_CHAIN);
    assert QuietEscrow(after, e, live);
    hide Open, ReconcileFrom;
  }

  // ----- the service -----

  class ReconcileService {
    var payments: map<PaymentId, BookRow>
    var findings: seq<Issue>
    var audits: seq<AuditRow>
    var report: Report

    function Now(): Progress
      reads this
    {
      Progress(Books(payments, findings, audits), report)
    }

    constructor (b: Books)
      ensures Now() == Progress(b, BLANK)
    {
      payments, findings, audits, report := b.payments, b.findings, b.audits, BLANK;
    }

    /** Whether an unresolved finding of the same kind already stands for this payment. */
    method Standing(payment: Option<PaymentId>, kind: FindingKind) returns (found: bool)
      ensures found == Open(findings, payment, kind)
    {
      var i := 0;
      while i < |findings|
        invariant 0 <= i <= |findings| && forall k :: 0 <= k < i ==> findings[k] != Issue(payment, kind, false)
      {
        if findings[i] == Issue(payment, kind, false) { return true; }
        i := i + 1;
      }
      return false;
    }

    method RecordFinding(payment: Option<PaymentId>, kind: FindingKind)
      modifies this`findings, this`report
      ensures Now() == Record(old(Now()), payment, kind)
      ensures payments == old(payments)
    {
      var standing := Standing(payment, kind);
      if standing { return; }
      findings := findings + [Issue(payment, kind, false)];
      report := report.(found := report.found + 1);
    }

    /** The state machine applied to one payment, as the reconciler. */
    method TransitionPayment(p: PaymentId, to: PaymentState) returns (ok: bool, changed: bool)
      requires p in payments
      modifies this`payments, this`audits
      ensures changed == (old(payments[p].state) != to && Permitted(old(payments[p].state), to))
      ensures ok == (old(payments[p].state) == to || changed)
      ensures Now() == if changed then Progress(MovedTo(old(Now()).books, p, to), report) else old(Now())
    {
      var row := payments[p];
      if row.state == to { return true, false; }
      if !Permitted(row.state, to) { return false, false; }
      payments := payments[p := row.(state := to)];
      audits := audits + [AuditRow(p, row.state, to, RECONCILER)];
      return true, true;
    }

    method Examine(p: PaymentId, cp: Option<ChainPayment>)
      requires p in payments
      modifies this
      ensures Now() == ExaminePayment(old(Now()), p, cp)
    {
      hide Permitted, Open, Record;
      report := report.(payments := report.payments + 1);
      if cp == None {
        RecordFinding(Some(p), MISSING_ON_CHAIN);
        return;
      }
      var c := cp.value;
      var row := payments[p];
      if row.amount != c.amount { RecordFinding(Some(p), AMOUNT_MISMATCH); }
      if row.recipient != c.worker { RecordFinding(Some(p), RECIPIENT_MISMATCH); }
      hide ExamineIdentity;
      assert payments[p] == row;
      Settle(p, row.state, c);
    }

    method Settle(p: PaymentId, state: PaymentState, c: ChainPayment)
      requires p in payments && payments[p].state == state
      modifies this
      ensures Now() == ExamineSettlement(old(Now()), p, c)
    {
      hide Permitted, Open, Record;
      if c.status == Finalized && state != PAID {
        var ok, changed := TransitionPayment(p, PAID);
        if ok && changed {
          report := report.(advanced := report.advanced + 1);
        } else {
          RecordFinding(Some(p), CHAIN_PAID_DB_NOT);
        }
        return;
      }
      if state == PAID && c.status != Finalized {
        RecordFinding(Some(p), DB_PAID_CHAIN_NOT);
        var ok, changed := TransitionPayment(p, RECONCILIATION_REQUIRED);
        if ok && changed { report := report.(flagged := report.flagged + 1); }
        return;
      }
      if c.status == Cancelled && state != CANCELLED && state != PAID {
        var ok, changed := TransitionPayment(p, CANCELLED);
        if ok && changed { report := report.(flagged := report.flagged + 1); }
      }
    }

    method ExamineOne(e: EscrowRecord, live: ChainReads)
      requires Listed(Now().books, e.payments)
      modifies this
      ensures Now() == ExamineEscrow(old(Now()), e, live)
    {
      hide Open, ExaminePayment, Record;
      report := report.(escrows := report.escrows + 1);
      ghost var g := Now();
      if e.id !in live {
        report := report.(unreadable := report.unreadable + 1);
        RecordFinding(None, MISSING_ON_CHAIN);
        return;
      }
      var chain := live[e.id];
      var i := 0;
      while i < |chain|
        invariant 0 <= i <= |chain| && Now() == ExamineSlots(g, e.payments, chain[..i])
      {
        assert chain[..i + 1][..i] == chain[..i];
        var has := Shown(e.payments, chain[i].index);
        if !has { RecordFinding(None, ORPHAN_ON_CHAIN); }
        i := i + 1;
      }
      assert chain[..i] == chain;
      ghost var seen := Now();
      SlotsOnlyRecord(g, e.payments, chain);
      i := 0;
      while i < |e.payments|
        invariant 0 <= i <= |e.payments| && Listed(seen.books, e.payments)
        invariant Now() == ExaminePayments(seen, e.payments[..i], chain)
      {
        assert e.payments[..i + 1][..i] == e.payments[..i];
        var p := e.payments[i];
        Examine(p, OnChain(Now().books, p, chain));
        i := i + 1;
      }
      assert e.payments[..i] == e.payments;
    }

    method Shown(linked: seq<PaymentId>, index: nat) returns (has: bool)
      ensures has == Linked(Now().books, linked, index)
    {
      var i := 0;
      while i < |linked|
        invariant 0 <= i <= |linked|
        invariant forall k :: 0 <= k < i ==> !(linked[k] in payments && payments[linked[k]].slot == Some(index))
      {
        if linked[i] in payments && payments[linked[i]].slot == Some(index) { return true; }
        i := i + 1;
      }
      return false;
    }

    method ReconcileOrganization(escrows: seq<EscrowRecord>, live: ChainReads)
      requires AllListed(Now().books, escrows)
      modifies this
      ensures Now() == ReconcileFrom(old(Now()), escrows, live)
    {
      hide ExamineEscrow;
      ghost var g := Now();
      var i := 0;
      while i < |escrows|
        invariant 0 <= i <= |escrows| && AllListed(g.books, escrows)
        invariant Now() == ReconcileFrom(g, escrows[..i], live)
      {
        assert escrows[..i + 1][..i] == escrows[..i];
        assert escrows[i] in escrows;
        ExamineOne(escrows[i], live);
        i := i + 1;
      }
      assert escrows[..i] == escrows;
    }
  }
}
