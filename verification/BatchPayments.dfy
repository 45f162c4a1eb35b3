/** The payments of payroll batches as the funding bridge writes them: moved from state to state, and linked to slots. */
module BatchPayments {
  import opened Prelude
  import opened ByteStrings
  import opened StateMachine
  import opened Eligibility

  datatype BatchPayment = BatchPayment(batch: string, p: FundingPayment)

  /** A batch's payments, in creation order. */
  function PaymentsOf(payments: seq<BatchPayment>, batch: string): seq<FundingPayment> {
    if payments == [] then []
    else
      var n := |payments| - 1;
      PaymentsOf(payments[..n], batch) + if payments[n].batch == batch then [payments[n].p] else []
  }

  function RestateOne(bp: BatchPayment, batch: string, from: PaymentState, to: PaymentState): BatchPayment {
    if bp.batch == batch && bp.p.state == from then bp.(p := bp.p.(state := to)) else bp
  }

  /** The statement that moves a batch's payments from one state to another. */
  function Restate(payments: seq<BatchPayment>, batch: string, from: PaymentState, to: PaymentState): (r: seq<BatchPayment>)
    ensures |r| == |payments|
  {
    seq(|payments|, i requires 0 <= i < |payments| => RestateOne(payments[i], batch, from, to))
  }

  /** Each payment of the batch linked to the slot at its position. */
  function Link(payments: seq<BatchPayment>, batch: string): (r: seq<BatchPayment>)
    ensures |r| == |payments|
  {
    if payments == [] then []
    else
      var n := |payments| - 1;
      var last := payments[n];
      Link(payments[..n], batch)
      + [if last.batch == batch then last.(p := last.p.(onEscrow := true, slot := Some(|PaymentsOf(payments[..n], batch)|))) else last]
  }

  /** Who is funding, and with what. */
  datatype Funder = Funder(wallet: Address, role: OrgRole, financeApprover: Option<Address>, oracleKey: Option<Bytes>, asset: Asset)

  function Asked(payments: seq<FundingPayment>, attempt: Option<TxStatus>, f: Funder): Request {
    Request(payments, f.asset, f.wallet, f.role, f.financeApprover, attempt, f.oracleKey)
  }

  /** These payments would be eligible for this funder if the batch had no attempt. */
  predicate ClearFor(payments: seq<FundingPayment>, f: Funder) {
    Blockers(Asked(payments, None, f)) == []
  }

  /** An attempt blocks exactly while it is in flight or confirmed. */
  lemma AttemptBlocks(payments: seq<FundingPayment>, attempt: Option<TxStatus>, f: Funder)
    ensures
      Blockers(Asked(payments, attempt, f)) == []
      <==> ClearFor(payments, f) && (attempt.Some? ==> attempt.value != CONFIRMED && attempt.value !in IN_FLIGHT)
  {
    EligibleExactly(Asked(payments, attempt, f));
    EligibleExactly(Asked(payments, None, f));
    hide Blockers;
    forall i | 0 <= i < |payments|
      ensures FundableRow(Asked(payments, attempt, f), payments[i]) == FundableRow(Asked(payments, None, f), payments[i])
    {
    }
  }

  lemma {:induction false} LinkSlots(payments: seq<BatchPayment>, batch: string)
    ensures
      var before, after := PaymentsOf(payments, batch), PaymentsOf(Link(payments, batch), batch);
      && |after| == |before|
      && forall i :: 0 <= i < |before| ==> after[i] == before[i].(onEscrow := true, slot := Some(i))
  {
    if payments != [] {
      var n := |payments| - 1;
      LinkSlots(payments[..n], batch);
      assert Link(payments, batch)[..n] == Link(payments[..n], batch);
    }
  }

  lemma {:induction false} LinkElsewhere(payments: seq<BatchPayment>, linked: string, batch: string)
    requires batch != linked
    ensures PaymentsOf(Link(payments, linked), batch) == PaymentsOf(payments, batch)
  {
    if payments != [] {
      var n := |payments| - 1;
      LinkElsewhere(payments[..n], linked, batch);
      assert Link(payments, linked)[..n] == Link(payments[..n], linked);
    }
  }

  lemma {:induction false} RestatedRows(payments: seq<BatchPayment>, moved: string, from: PaymentState, to: PaymentState, batch: string)
    ensures
      var before, after := PaymentsOf(payments, batch), PaymentsOf(Restate(payments, moved, from, to), batch);
      && |after| == |before|
      && forall i :: 0 <= i < |before| ==>
           after[i] == if batch == moved && before[i].state == from then before[i].(state := to) else before[i]
  {
    if payments != [] {
      var n := |payments| - 1;
      RestatedRows(payments[..n], moved, from, to, batch);
      assert Restate(payments, moved, from, to)[..n] == Restate(payments[..n], moved, from, to);
    }
  }

  /** Moving payments between the two fundable states changes nobody's eligibility. */
  lemma RestateKeepsClear(payments: seq<BatchPayment>, moved: string, from: PaymentState, to: PaymentState, batch: string, f: Funder)
    requires from in FUNDABLE_STATES && to in FUNDABLE_STATES
    ensures ClearFor(PaymentsOf(Restate(payments, moved, from, to), batch), f) == ClearFor(PaymentsOf(payments, batch), f)
  {
    RestatedRows(payments, moved, from, to, batch);
    var before, after := PaymentsOf(payments, batch), PaymentsOf(Restate(payments, moved, from, to), batch);
    EligibleExactly(Asked(before, None, f));
    EligibleExactly(Asked(after, None, f));
    hide Blockers, PaymentsOf, Restate;
    forall i | 0 <= i < |before|
      ensures FundableRow(Asked(after, None, f), after[i]) == FundableRow(Asked(before, None, f), before[i])
    {
    }
  }

  /** A linked batch is clear for nobody. */
  lemma LinkedIsBarred(payments: seq<FundingPayment>, i: nat, f: Funder)
    requires i < |payments| && (payments[i].onEscrow || payments[i].slot.Some?)
    ensures !ClearFor(payments, f)
  {
    EligibleExactly(Asked(payments, None, f));
    hide Blockers;
    assert !FundableRow(Asked(payments, None, f), payments[i]);
  }

  lemma LinkBars(payments: seq<BatchPayment>, linked: string, batch: string, f: Funder)
    ensures ClearFor(PaymentsOf(Link(payments, linked), batch), f) ==> ClearFor(PaymentsOf(payments, batch), f) && batch != linked
  {
    hide Blockers, Link;
    if batch == linked {
      LinkSlots(payments, batch);
      var after := PaymentsOf(Link(payments, batch), batch);
      if after == [] {
        EmptyIsBarred(f);
      } else {
        LinkedIsBarred(after, 0, f);
      }
    } else {
      LinkElsewhere(payments, linked, batch);
    }
  }

  lemma EmptyIsBarred(f: Funder)
    ensures !ClearFor([], f)
  {
    EligibleExactly(Asked([], None, f));
    hide Blockers;
  }
}
