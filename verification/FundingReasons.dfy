/** What the funding bridge says when it refuses: every reason it names is so, and every reason there is it names. */
module FundingReasons {
  import opened Prelude
  import opened StateMachine
  import opened Eligibility
  import opened Confirmation

  // ----- blockers -----

  /** What is wrong with the batch as a whole. */
  ghost predicate WrongWithBatch(r: Request, code: BlockerCode) {
    match code
    case ROLE_NOT_PERMITTED => r.role !in {OWNER, ADMIN, MANAGER}
    case ALREADY_FUNDED => r.attempt == Some(CONFIRMED)
    case FUNDING_IN_FLIGHT => r.attempt.Some? && r.attempt.value in {PREPARING, SIMULATING, AWAITING_SIGNATURE, SUBMITTED}
    case NO_PAYMENTS => |r.payments| == 0
    case TOO_MANY_PAYMENTS => |r.payments| > 100
    case SETTLEMENT_ASSET_UNCONFIGURED => r.asset.contractId == None
    case MIXED_ASSETS => exists i, j :: 0 <= i < j < |r.payments| && r.payments[i].assetCode != r.payments[j].assetCode
    case NO_DISTINCT_FINANCE_APPROVER => r.financeApprover == None || r.financeApprover.value == r.wallet
    case ORACLE_KEY_UNAVAILABLE => r.oracleKey == None
    case _ => false
  }

  /** What is wrong with one payment of it. */
  predicate WrongWithRow(r: Request, p: FundingPayment, code: BlockerCode) {
    var priced := p.amount > 0 && p.rate > 0 && p.hours > 0;
    match code
    case PAYMENT_NOT_FUNDABLE => p.state != DRAFT && p.state != VALIDATING
    case PAYMENT_ALREADY_ON_CHAIN => p.onEscrow || p.slot != None
    case ASSET_MISMATCH => p.assetCode != r.asset.code
    case AMOUNT_NOT_POSITIVE => !priced
    case HOURS_RATE_MISMATCH => priced && p.hours * p.rate != p.amount
    case PERIOD_REQUIRED => p.periodStart == None || p.periodEnd == None
    case PERIOD_INVALID => p.periodStart.Some? && p.periodEnd.Some? && p.periodEnd.value <= p.periodStart.value
    case _ => false
  }

  lemma MixedExactly(payments: seq<FundingPayment>)
    ensures |AssetCodes(payments)| > 1 <==> exists i, j :: 0 <= i < j < |payments| && payments[i].assetCode != payments[j].assetCode
  {
    var codes := AssetCodes(payments);
    if i, j :| 0 <= i < j < |payments| && payments[i].assetCode != payments[j].assetCode {
      var two := {payments[i].assetCode, payments[j].assetCode};
      assert codes == two + (codes - two);
      assert |two| == 2;
    } else if payments != [] {
      assert codes <= {payments[0].assetCode};
      AtMostOne(codes, payments[0].assetCode);
    } else {
      assert codes == {};
    }
  }

  lemma WhoTells(r: Request, code: BlockerCode)
    ensures Blocker(code, None) in WhoBlockers(r) <==> code in {ROLE_NOT_PERMITTED, ALREADY_FUNDED, FUNDING_IN_FLIGHT} && WrongWithBatch(r, code)
    ensures forall b :: b in WhoBlockers(r) ==> b.position == None
  {
  }

  lemma ContentsTell(r: Request, code: BlockerCode)
    ensures
      Blocker(code, None) in BatchBlockers(r)
      <==> code in {NO_PAYMENTS, TOO_MANY_PAYMENTS, SETTLEMENT_ASSET_UNCONFIGURED, MIXED_ASSETS} && WrongWithBatch(r, code)
    ensures forall b :: b in BatchBlockers(r) ==> b.position == None
  {
    MixedExactly(r.payments);
    hide AssetCodes;
  }

  lemma ApproversTell(r: Request, code: BlockerCode)
    ensures Blocker(code, None) in TailBlockers(r) <==> code in {NO_DISTINCT_FINANCE_APPROVER, ORACLE_KEY_UNAVAILABLE} && WrongWithBatch(r, code)
    ensures forall b :: b in TailBlockers(r) ==> b.position == None
  {
  }

  lemma BatchWideTell(r: Request, code: BlockerCode)
    ensures Blocker(code, None) in HeadBlockers(r) + TailBlockers(r) <==> WrongWithBatch(r, code)
    ensures forall b :: b in HeadBlockers(r) + TailBlockers(r) ==> b.position == None
  {
    WhoTells(r, code);
    ContentsTell(r, code);
    ApproversTell(r, code);
    BatchCodes(r, code);
    hide WhoBlockers, BatchBlockers, TailBlockers, WrongWithBatch;
  }

  lemma BatchCodes(r: Request, code: BlockerCode)
    ensures WrongWithBatch(r, code) ==>
      || code in {ROLE_NOT_PERMITTED, ALREADY_FUNDED, FUNDING_IN_FLIGHT}
      || code in {NO_PAYMENTS, TOO_MANY_PAYMENTS, SETTLEMENT_ASSET_UNCONFIGURED, MIXED_ASSETS}
      || code in {NO_DISTINCT_FINANCE_APPROVER, ORACLE_KEY_UNAVAILABLE}
  {
  }

  lemma PlaceTells(r: Request, p: FundingPayment, position: nat, code: BlockerCode)
    ensures
      Blocker(code, Some(position)) in PlaceBlockers(r, p, position)
      <==> code in {PAYMENT_NOT_FUNDABLE, PAYMENT_ALREADY_ON_CHAIN, ASSET_MISMATCH} && WrongWithRow(r, p, code)
    ensures forall b :: b in PlaceBlockers(r, p, position) ==> b.position == Some(position)
  {
  }

  lemma MoneyTells(r: Request, p: FundingPayment, position: nat, code: BlockerCode)
    ensures
      Blocker(code, Some(position)) in MoneyBlockers(p, position)
      <==> code in {AMOUNT_NOT_POSITIVE, HOURS_RATE_MISMATCH} && WrongWithRow(r, p, code)
    ensures forall b :: b in MoneyBlockers(p, position) ==> b.position == Some(position)
  {
  }

  lemma PeriodTells(r: Request, p: FundingPayment, position: nat, code: BlockerCode)
    ensures Blocker(code, Some(position)) in PeriodBlockers(p, position) <==> code in {PERIOD_REQUIRED, PERIOD_INVALID} && WrongWithRow(r, p, code)
    ensures forall b :: b in PeriodBlockers(p, position) ==> b.position == Some(position)
  {
  }

  lemma RowCodes(r: Request, p: FundingPayment, code: BlockerCode)
    ensures WrongWithRow(r, p, code) ==>
      || code in {PAYMENT_NOT_FUNDABLE, PAYMENT_ALREADY_ON_CHAIN, ASSET_MISMATCH}
      || code in {AMOUNT_NOT_POSITIVE, HOURS_RATE_MISMATCH}
      || code in {PERIOD_REQUIRED, PERIOD_INVALID}
  {
  }

  lemma RowTells(r: Request, p: FundingPayment, position: nat, code: BlockerCode)
    ensures Blocker(code, Some(position)) in RowBlockers(r, p, position) <==> WrongWithRow(r, p, code)
    ensures forall b :: b in RowBlockers(r, p, position) ==> b.position == Some(position)
  {
    PlaceTells(r, p, position, code);
    MoneyTells(r, p, position, code);
    PeriodTells(r, p, position, code);
    RowCodes(r, p, code);
    hide PlaceBlockers, MoneyBlockers, PeriodBlockers, WrongWithRow;
  }

  lemma {:induction false} RowsTell(r: Request, n: nat, position: nat, code: BlockerCode)
    requires n <= |r.payments|
    ensures
      Blocker(code, Some(position)) in AllRowBlockers(r, n) <==> 1 <= position <= n && WrongWithRow(r, r.payments[position - 1], code)
    ensures forall b :: b in AllRowBlockers(r, n) ==> b.position.Some? && 1 <= b.position.value <= n
  {
    hide RowBlockers, WrongWithRow;
    if n > 0 {
      RowsTell(r, n - 1, position, code);
      RowTells(r, r.payments[n - 1], n, code);
    }
  }

  /**
   * A batch is told a blocker if and only if it is so: about the batch without a row, about a payment with its 1-based row,
   * and the rows in their order.
   */
  lemma BlockersTell(r: Request, code: BlockerCode, position: nat)
    ensures Blockers(r) == HeadBlockers(r) + AllRowBlockers(r, |r.payments|) + TailBlockers(r) && InRowOrder(AllRowBlockers(r, |r.payments|), |r.payments|)
    ensures Blocker(code, None) in Blockers(r) <==> WrongWithBatch(r, code)
    ensures Blocker(code, Some(position)) in Blockers(r) <==> 1 <= position <= |r.payments| && WrongWithRow(r, r.payments[position - 1], code)
  {
    BatchWideTell(r, code);
    RowsInOrder(r, |r.payments|);
    RowsTell(r, |r.payments|, position, code);
    hide HeadBlockers, TailBlockers, AllRowBlockers, WrongWithBatch, WrongWithRow;
    var b, c := Blocker(code, None), Blocker(code, Some(position));
    assert b in Blockers(r) <==> b in HeadBlockers(r) + TailBlockers(r) || b in AllRowBlockers(r, |r.payments|);
    assert c in Blockers(r) <==> c in HeadBlockers(r) + TailBlockers(r) || c in AllRowBlockers(r, |r.payments|);
  }

  /** About rows, and never an earlier row after a later one. */
  ghost predicate InRowOrder(found: seq<Blocker>, last: nat) {
    && (forall b :: b in found ==> b.position.Some? && b.position.value <= last)
    && (forall i, j :: 0 <= i < j < |found| && found[i].position.Some? && found[j].position.Some? ==>
          found[i].position.value <= found[j].position.value)
  }

  lemma JoinInOrder(before: seq<Blocker>, here: seq<Blocker>, n: nat)
    requires n > 0 && InRowOrder(before, n - 1) && forall b :: b in here ==> b.position == Some(n)
    ensures InRowOrder(before + here, n)
  {
    var all := before + here;
    forall i | 0 <= i < |all| ensures all[i].position.Some? && (if i < |before| then all[i].position.value <= n - 1 else all[i].position.value == n) {
      if i < |before| { assert before[i] in before; } else { assert here[i - |before|] in here; }
    }
  }

  /** The rows' blockers come in the rows' order. */
  lemma {:induction false} RowsInOrder(r: Request, n: nat)
    requires n <= |r.payments|
    ensures InRowOrder(AllRowBlockers(r, n), n)
  {
    hide RowBlockers, InRowOrder;
    if n == 0 {
      EmptyInOrder();
    } else {
      RowsInOrder(r, n - 1);
      RowTells(r, r.payments[n - 1], n, NO_PAYMENTS);
      JoinInOrder(AllRowBlockers(r, n - 1), RowBlockers(r, r.payments[n - 1], n), n);
    }
  }

  lemma EmptyInOrder()
    ensures InRowOrder([], 0)
  {
  }

  // ----- differences -----

  /** What each difference says, of the chain's facts and the payments as they are now against the stored plan. */
  ghost predicate Differs(a: AttemptRecord, plan: FundingPlan, f: ChainFacts, payments: seq<FundingPayment>, d: Difference) {
    match d
    case OtherNetwork => a.network != plan.network
    case OtherContract => a.contractId.Some? && a.contractId.value != plan.contractId
    case ChainCancelled => f.cancelled
    case OtherManager => f.manager != plan.manager
    case OtherFinance => f.financeApprover != plan.financeApprover
    case SameSigners => f.manager == f.financeApprover
    case OtherCount => |f.payments| != |plan.rows|
    case OtherWorker(i) => |f.payments| == |plan.rows| && i < |plan.rows| && f.payments[i].worker != plan.rows[i].worker
    case OtherAmount(i) => |f.payments| == |plan.rows| && i < |plan.rows| && f.payments[i].amount != plan.rows[i].amount
    case OtherToken(i) => |f.payments| == |plan.rows| && i < |plan.rows| && f.payments[i].token != plan.rows[i].token
    case PaymentGone(i) => i < |plan.rows| && Named(payments, plan.rows[i].paymentId) == None
    case PaymentAltered(i) =>
      && i < |plan.rows|
      && var now := Named(payments, plan.rows[i].paymentId);
      now.Some? && (now.value.recipient != plan.rows[i].worker || now.value.amount != plan.rows[i].amount || now.value.rate != plan.rows[i].rate)
    case OtherPaymentCount => |payments| != |plan.rows|
    case ManyEscrows => false
    case OtherEscrowClaimed => false
  }

  lemma RowDifferenceTells(actual: FactRow, expected: PlanRow, i: nat, d: Difference)
    ensures
      d in RowDifference(actual, expected, i)
      <==> match d
           case OtherWorker(k) => k == i && actual.worker != expected.worker
           case OtherAmount(k) => k == i && actual.amount != expected.amount
           case OtherToken(k) => k == i && actual.token != expected.token
           case _ => false
  {
  }

  lemma {:induction false} RowDifferencesTell(actual: seq<FactRow>, expected: seq<PlanRow>, n: nat, d: Difference)
    requires n <= |actual| && n <= |expected|
    ensures
      d in RowDifferences(actual, expected, n)
      <==> match d
           case OtherWorker(i) => i < n && actual[i].worker != expected[i].worker
           case OtherAmount(i) => i < n && actual[i].amount != expected[i].amount
           case OtherToken(i) => i < n && actual[i].token != expected[i].token
           case _ => false
  {
    hide RowDifference;
    if n > 0 {
      RowDifferencesTell(actual, expected, n - 1, d);
      RowDifferenceTells(actual[n - 1], expected[n - 1], n - 1, d);
    }
  }

  lemma {:induction false} AlterationsTell(payments: seq<FundingPayment>, rows: seq<PlanRow>, n: nat, d: Difference)
    requires n <= |rows|
    ensures
      d in Alterations(payments, rows, n)
      <==> match d
           case PaymentGone(i) => i < n && Named(payments, rows[i].paymentId) == None
           case PaymentAltered(i) =>
             && i < n
             && var now := Named(payments, rows[i].paymentId);
             now.Some? && (now.value.recipient != rows[i].worker || now.value.amount != rows[i].amount || now.value.rate != rows[i].rate)
           case _ => false
  {
    hide Named;
    if n > 0 {
      AlterationsTell(payments, rows, n - 1, d);
    }
  }

  /** What a payment named by a plan row is now: the last one listed under that id. */
  lemma {:induction false} NamedExactly(payments: seq<FundingPayment>, id: string)
    ensures Named(payments, id) == None <==> forall i :: 0 <= i < |payments| ==> payments[i].id != id
    ensures Named(payments, id).Some? ==>
      exists i :: 0 <= i < |payments| && Named(payments, id) == Some(payments[i]) && payments[i].id == id
                  && forall j :: i < j < |payments| ==> payments[j].id != id
  {
    if payments != [] {
      var n := |payments| - 1;
      NamedExactly(payments[..n], id);
      if payments[n].id == id {
        assert Named(payments, id) == Some(payments[n]);
      } else if Named(payments, id).Some? {
        var i :| 0 <= i < n && Named(payments[..n], id) == Some(payments[..n][i]) && payments[..n][i].id == id
                 && forall j :: i < j < n ==> payments[..n][j].id != id;
        forall j | i < j < |payments| ensures payments[j].id != id {
          if j < n { assert payments[..n][j] == payments[j]; }
        }
        assert Named(payments, id) == Some(payments[i]);
      } else {
        forall i | 0 <= i < |payments| ensures payments[i].id != id {
          if i < n { assert payments[..n][i] == payments[i]; }
        }
      }
    }
  }

  lemma HeadDifferencesTell(a: AttemptRecord, plan: FundingPlan, f: ChainFacts, payments: seq<FundingPayment>, d: Difference)
    ensures d in SignerDifferences(a, plan, f) ==> Differs(a, plan, f, payments, d)
    ensures Differs(a, plan, f, payments, d)
            && (d.OtherNetwork? || d.OtherContract? || d.ChainCancelled? || d.OtherManager? || d.OtherFinance? || d.SameSigners?)
            ==> d in SignerDifferences(a, plan, f)
  {
    hide Named;
  }

  /** Confirmation reports a difference if and only if it is one. */
  lemma DifferencesTell(a: AttemptRecord, plan: FundingPlan, f: ChainFacts, payments: seq<FundingPayment>, d: Difference)
    ensures d in Differences(a, plan, f, payments) <==> Differs(a, plan, f, payments, d)
  {
    HeadDifferencesTell(a, plan, f, payments, d);
    AlterationsTell(payments, plan.rows, |plan.rows|, d);
    if |f.payments| == |plan.rows| {
      RowDifferencesTell(f.payments, plan.rows, |plan.rows|, d);
    }
    hide SignerDifferences, RowDifferences, Alterations, Named;
    var head, rows, now := SignerDifferences(a, plan, f), ChainRowDifferences(f, plan), Alterations(payments, plan.rows, |plan.rows|);
    var count := Note(|payments| != |plan.rows|, OtherPaymentCount);
    assert d in Differences(a, plan, f, payments) <==> d in head || d in rows || d in now || d in count;
  }

  // ----- verdicts -----

  /** The transaction succeeded and one escrow came of it, the one the caller named if it named one. */
  predicate Created(ev: Evidence, claimed: Option<nat>) {
    ev.succeeded == Some(true) && ev.resolution.Resolved? && (claimed.Some? ==> claimed.value == ev.resolution.id)
  }

  /** The exact total went from the plan's manager to custody in that transaction. */
  ghost predicate Moved(a: AttemptRecord, plan: FundingPlan, ev: Evidence) {
    ev.transfers.Some? && TransferFact(a.hash, plan.manager, plan.custody, plan.total) in ev.transfers.value
  }

  /** There is a difference to report. */
  ghost predicate Disagrees(a: AttemptRecord, plan: FundingPlan, f: ChainFacts, payments: seq<FundingPayment>) {
    exists d :: Differs(a, plan, f, payments, d)
  }

  lemma DisagreesExactly(a: AttemptRecord, plan: FundingPlan, f: ChainFacts, payments: seq<FundingPayment>)
    ensures
      var ds := Differences(a, plan, f, payments);
      (ds != [] <==> Disagrees(a, plan, f, payments)) && ds != [ManyEscrows] && ds != [OtherEscrowClaimed]
  {
    hide Differences, Differs;
    var ds := Differences(a, plan, f, payments);
    if ds != [] {
      DifferencesTell(a, plan, f, payments, ds[0]);
      NeverOfEscrows(a, plan, f, payments, ds[0]);
    }
    if d :| Differs(a, plan, f, payments, d) {
      DifferencesTell(a, plan, f, payments, d);
    }
  }

  lemma NeverOfEscrows(a: AttemptRecord, plan: FundingPlan, f: ChainFacts, payments: seq<FundingPayment>, d: Difference)
    requires Differs(a, plan, f, payments, d)
    ensures d != ManyEscrows && d != OtherEscrowClaimed
  {
  }

  /** Every verdict, and when it is given: a failure, a disagreement and an unreadable chain are not confused. */
  lemma VerdictExactly(a: AttemptRecord, ev: Evidence, claimed: Option<nat>, payments: seq<FundingPayment>)
    ensures
      var v := Judge(a, ev, claimed, payments);
      var aboutPlan := v.Mismatch? && v.differences != [ManyEscrows] && v.differences != [OtherEscrowClaimed];
      && (v == FailedOnChain <==> ev.succeeded == Some(false))
      && (v == Mismatch([ManyEscrows]) <==> ev.succeeded == Some(true) && ev.resolution == Ambiguous)
      && (v == Mismatch([OtherEscrowClaimed])
          <==> ev.succeeded == Some(true) && ev.resolution.Resolved? && claimed.Some? && claimed.value != ev.resolution.id)
      && (v == Untrusted <==> Created(ev, claimed) && a.plan == None)
      && (aboutPlan <==> Created(ev, claimed) && a.plan.Some? && ev.facts.Some? && Disagrees(a, a.plan.value, ev.facts.value, payments))
      && (v.Confirmed?
          <==> Created(ev, claimed) && a.plan.Some? && ev.facts.Some? && !Disagrees(a, a.plan.value, ev.facts.value, payments)
               && Moved(a, a.plan.value, ev))
      && (v.Confirmed? ==> v.id == ev.resolution.id)
  {
    hide Differences, Disagrees, IsFundingTransfer;
    if a.plan.Some? && ev.facts.Some? {
      DisagreesExactly(a, a.plan.value, ev.facts.value, payments);
      MovedExactly(a, a.plan.value, ev);
    }
  }

  lemma MovedExactly(a: AttemptRecord, plan: FundingPlan, ev: Evidence)
    ensures ev.transfers.Some? ==>
      (Moved(a, plan, ev) <==> exists i :: 0 <= i < |ev.transfers.value| && IsFundingTransfer(ev.transfers.value[i], a, plan))
  {
  }
}
