/** The funding service: intents, their abandonment and their confirmation, over the stored attempts and payments. */
module FundingService {
  import opened Prelude
  import opened StateMachine
  import opened Eligibility
  import opened BatchPayments
  import opened Confirmation
  import opened Intents

  /** What an attempt's record froze when it was opened. */
  datatype Frozen = Frozen(network: string, contractId: Option<Address>, plan: Option<FundingPlan>)

  /** The evidence a mismatch with the plan leaves. */
  datatype MismatchFinding = MismatchFinding(row: nat, differences: seq<Difference>)

  datatype Books = Books(
    attempts: seq<Attempt>, frozen: map<nat, Frozen>, payments: seq<BatchPayment>, escrows: set<nat>, findings: seq<MismatchFinding>)

  /** An escrow that could not be settled on, or that the caller misnamed, is refused without a finding. */
  predicate FromPlan(differences: seq<Difference>) {
    differences != [ManyEscrows] && differences != [OtherEscrowClaimed]
  }

  function RequestOf(b: Books, batch: string, f: Funder): Request {
    Asked(PaymentsOf(b.payments, batch), LatestStatus(b.attempts, batch), f)
  }

  /** Opening an intent with nobody in between. */
  function Opened(b: Books, batch: string, f: Funder, contract: Address, network: string): Books {
    var r := RequestOf(b, batch, f);
    if Blockers(r) != [] then b
    else
      EligibleExactly(r);
      var rows := Inserted(b.attempts, batch, NextNumber(b.attempts, batch));
      if |rows| == |b.attempts| then b
      else
        b.(attempts := rows,
           frozen := b.frozen[|b.attempts| := Frozen(network, Some(contract), Some(BuildFundingPlan(r, contract, network)))],
           payments := Restate(b.payments, batch, DRAFT, VALIDATING))
  }

  /** Recording a submission, for an attempt of the batch named. */
  function Reported(b: Books, row: nat, batch: string, txHash: string): Books {
    if row < |b.attempts| && b.attempts[row].batch == batch then b.(attempts := MarkSubmitted(b.attempts, row, txHash)) else b
  }

  /** Abandoning: refused once confirmed; the payments are editable again only when nothing was submitted. */
  function Abandoned(b: Books, row: nat, batch: string, userRejected: bool): Books {
    if row >= |b.attempts| || b.attempts[row].batch != batch || b.attempts[row].status == CONFIRMED then b
    else
      b.(attempts := b.attempts[row := b.attempts[row].(status := if userRejected then TX_CANCELLED else FAILED)],
         payments := if b.attempts[row].hash == None then Restate(b.payments, batch, VALIDATING, DRAFT) else b.payments)
  }

  function RecordOf(b: Books, row: nat): AttemptRecord
    requires row < |b.attempts| && b.attempts[row].hash.Some?
  {
    var z := if row in b.frozen then b.frozen[row] else Frozen("", None, None);
    AttemptRecord(b.attempts[row].hash.value, z.network, z.contractId, z.plan)
  }

  /**
   * Confirming: only a verdict of Confirmed links the payments, only a reverted transaction rewinds them, and a mismatch
   * with the plan leaves a finding.
   */
  function Concluded(b: Books, row: nat, v: Verdict): Books
    requires row < |b.attempts|
  {
    var batch := b.attempts[row].batch;
    match v
    case Confirmed(id) =>
      b.(attempts := b.attempts[row := b.attempts[row].(status := CONFIRMED, escrow := Some(id))],
         payments := Link(b.payments, batch), escrows := b.escrows + {id})
    case FailedOnChain =>
      b.(attempts := b.attempts[row := b.attempts[row].(status := FAILED)], payments := Restate(b.payments, batch, VALIDATING, DRAFT))
    case Mismatch(d) => if FromPlan(d) then b.(findings := b.findings + [MismatchFinding(row, d)]) else b
    case _ => b
  }

  /** What confirming answers: nothing for an attempt that is not there, has no hash, or has been answered before. */
  function Answer(b: Books, row: nat, batch: string, ev: Evidence, claimed: Option<nat>): Option<Verdict> {
    if row >= |b.attempts| || b.attempts[row].batch != batch || b.attempts[row].hash == None || Answered(b.attempts[row]) then None
    else Some(Judge(RecordOf(b, row), ev, claimed, PaymentsOf(b.payments, batch)))
  }

  function Confirming(b: Books, row: nat, batch: string, ev: Evidence, claimed: Option<nat>): Books {
    var v := Answer(b, row, batch, ev, claimed);
    if v == None then b else Concluded(b, row, v.value)
  }

  datatype Opening = Created(row: nat) | Existing(row: nat) | Refused(blockers: seq<Blocker>)

  /** What opening answers: the attempt in flight if it is all that stands in the way, what else does, or the new attempt. */
  function Reply(b: Books, batch: string, f: Funder): Opening {
    var blockers, latest := Blockers(RequestOf(b, batch, f)), Latest(b.attempts, batch);
    if latest.Some? && b.attempts[latest.value].status in IN_FLIGHT && forall i :: 0 <= i < |blockers| ==> blockers[i].code == FUNDING_IN_FLIGHT
    then Existing(latest.value)
    else if blockers != [] then Refused(blockers)
    else if !KeyTaken(b.attempts, FundingKey(batch, NextNumber(b.attempts, batch))) then Created(|b.attempts|)
    else if latest.Some? then Existing(latest.value)
    else Refused([])
  }

  class FundingDesk {
    var attempts: seq<Attempt>
    var frozen: map<nat, Frozen>
    var payments: seq<BatchPayment>
    var escrows: set<nat>
    var findings: seq<MismatchFinding>

    function Now(): Books
      reads this
    {
      Books(attempts, frozen, payments, escrows, findings)
    }

    constructor (payments: seq<BatchPayment>)
      ensures Now() == Books([], map[], payments, {}, [])
    {
      attempts, frozen, this.payments, escrows, findings := [], map[], payments, {}, [];
    }

    method LoadPayments(batch: string) returns (ps: seq<FundingPayment>)
      ensures ps == PaymentsOf(payments, batch)
    {
      ps := [];
      var i := 0;
      while i < |payments|
        invariant 0 <= i <= |payments| && ps == PaymentsOf(payments[..i], batch)
      {
        assert payments[..i + 1][..i] == payments[..i];
        if payments[i].batch == batch { ps := ps + [payments[i].p]; }
        i := i + 1;
      }
      assert payments[..i] == payments;
    }

    method MoveAll(batch: string, from: PaymentState, to: PaymentState)
      modifies this`payments
      ensures payments == Restate(old(payments), batch, from, to)
    {
      ghost var was := payments;
      var i := 0;
      while i < |payments|
        invariant 0 <= i <= |payments| == |was|
        invariant forall k :: 0 <= k < |was| ==> payments[k] == if k < i then RestateOne(was[k], batch, from, to) else was[k]
      {
        payments := payments[i := RestateOne(payments[i], batch, from, to)];
        i := i + 1;
      }
    }

    method KeyExists(key: string) returns (taken: bool)
      ensures taken == KeyTaken(attempts, key)
    {
      var i := 0;
      while i < |attempts|
        invariant 0 <= i <= |attempts| && forall k :: 0 <= k < i ==> attempts[k].key != key
      {
        if attempts[i].key == key { return true; }
        i := i + 1;
      }
      return false;
    }

    method OpenFundingIntent(batch: string, f: Funder, contract: Address, network: string) returns (o: Opening)
      modifies this
      ensures Now() == Opened(old(Now()), batch, f, contract, network)
      ensures o == Reply(old(Now()), batch, f)
    {
      hide Blockers, Fundable, FundingKey;
      var ps := LoadPayments(batch);
      var latest := Latest(attempts, batch);
      var r := Asked(ps, LatestStatus(attempts, batch), f);
      var eligible, blockers, _ := AssessFundingEligibility(r);
      if latest.Some? && attempts[latest.value].status in IN_FLIGHT && forall i :: 0 <= i < |blockers| ==> blockers[i].code == FUNDING_IN_FLIGHT {
        InFlightIsABlocker(r);
        return Existing(latest.value);
      }
      if !eligible { return Refused(blockers); }
      EligibleExactly(r);
      var number := NextNumber(attempts, batch);
      var taken := KeyExists(FundingKey(batch, number));
      if taken {
        if latest.Some? { return Existing(latest.value); }
        return Refused([]);
      }
      var plan := BuildFundingPlan(r, contract, network);
      frozen := frozen[|attempts| := Frozen(network, Some(contract), Some(plan))];
      attempts := attempts + [Attempt(batch, number, FundingKey(batch, number), AWAITING_SIGNATURE, None, None)];
      MoveAll(batch, DRAFT, VALIDATING);
      return Created(|attempts| - 1);
    }

    method RecordFundingSubmitted(row: nat, batch: string, txHash: string) returns (found: bool)
      modifies this`attempts
      ensures found == (row < old(|attempts|) && old(attempts)[row].batch == batch)
      ensures Now() == Reported(old(Now()), row, batch, txHash)
    {
      if row >= |attempts| || attempts[row].batch != batch { return false; }
      var i := 0;
      var taken := false;
      while i < |attempts|
        invariant 0 <= i <= |attempts|
        invariant taken <==> exists k :: 0 <= k < i && attempts[k].hash == Some(txHash)
      {
        if attempts[i].hash == Some(txHash) { taken := true; }
        i := i + 1;
      }
      if attempts[row].status in NOT_SUBMITTED && !taken {
        attempts := attempts[row := attempts[row].(status := SUBMITTED, hash := Some(txHash))];
      }
      return true;
    }

    method FailFundingIntent(row: nat, batch: string, userRejected: bool) returns (ok: bool)
      modifies this
      ensures Now() == Abandoned(old(Now()), row, batch, userRejected)
    {
      if row >= |attempts| || attempts[row].batch != batch { return false; }
      if attempts[row].status == CONFIRMED { return false; }
      var nothingSubmitted := attempts[row].hash == None;
      attempts := attempts[row := attempts[row].(status := if userRejected then TX_CANCELLED else FAILED)];
      if nothingSubmitted { MoveAll(batch, VALIDATING, DRAFT); }
      return true;
    }

    method LinkPayments(batch: string)
      modifies this`payments
      ensures payments == Link(old(payments), batch)
    {
      ghost var was := payments;
      var i, slot := 0, 0;
      while i < |payments|
        invariant 0 <= i <= |payments| == |was| && slot == |PaymentsOf(was[..i], batch)|
        invariant payments[..i] == Link(was[..i], batch) && payments[i..] == was[i..]
      {
        assert was[..i + 1][..i] == was[..i] && payments[i] == was[i];
        if payments[i].batch == batch {
          payments := payments[i := payments[i].(p := payments[i].p.(onEscrow := true, slot := Some(slot)))];
          slot := slot + 1;
        }
        assert payments[..i + 1] == payments[..i] + [payments[i]];
        i := i + 1;
      }
      assert payments[..i] == payments && was[..i] == was;
    }

    /** Nothing is confirmed twice: an attempt already confirmed answers again without writing. */
    method ConfirmFunding(row: nat, batch: string, ev: Evidence, claimed: Option<nat>) returns (v: Option<Verdict>)
      modifies this
      ensures v == Answer(old(Now()), row, batch, ev, claimed)
      ensures Now() == Confirming(old(Now()), row, batch, ev, claimed)
    {
      hide Judge;
      if row >= |attempts| || attempts[row].batch != batch || attempts[row].hash == None { return None; }
      if Answered(attempts[row]) { return None; }
      var ps := LoadPayments(batch);
      var verdict := JudgeFunding(RecordOf(Now(), row), ev, claimed, ps);
      match verdict {
        case Confirmed(id) =>
          escrows := escrows + {id};
          LinkPayments(batch);
          attempts := attempts[row := attempts[row].(status := CONFIRMED, escrow := Some(id))];
        case FailedOnChain =>
          attempts := attempts[row := attempts[row].(status := FAILED)];
          MoveAll(batch, VALIDATING, DRAFT);
        case Mismatch(d) =>
          if d != [ManyEscrows] && d != [OtherEscrowClaimed] { findings := findings + [MismatchFinding(row, d)]; }
        case _ =>
      }
      return Some(verdict);
    }
  }

  lemma InFlightIsABlocker(r: Request)
    requires r.attempt.Some? && r.attempt.value in IN_FLIGHT
    ensures Blockers(r) != []
  {
    EligibleExactly(r);
    hide Blockers;
  }

  predicate AboutPlan(d: Difference) {
    !d.ManyEscrows? && !d.OtherEscrowClaimed?
  }

  lemma RowIsAboutPlan(actual: FactRow, expected: PlanRow, i: nat)
    ensures forall d :: d in RowDifference(actual, expected, i) ==> AboutPlan(d)
  {
  }

  lemma {:induction false} RowsAreAboutPlan(actual: seq<FactRow>, expected: seq<PlanRow>, n: nat)
    requires n <= |actual| && n <= |expected|
    ensures forall d :: d in RowDifferences(actual, expected, n) ==> AboutPlan(d)
  {
    hide RowDifference;
    if n > 0 {
      RowsAreAboutPlan(actual, expected, n - 1);
      RowIsAboutPlan(actual[n - 1], expected[n - 1], n - 1);
    }
  }

  lemma {:induction false} AlterationsAreAboutPlan(payments: seq<FundingPayment>, rows: seq<PlanRow>, n: nat)
    requires n <= |rows|
    ensures forall d :: d in Alterations(payments, rows, n) ==> AboutPlan(d)
  {
    hide Named, Unaltered;
    if n > 0 {
      AlterationsAreAboutPlan(payments, rows, n - 1);
    }
  }

  lemma DifferencesAreAboutPlan(a: AttemptRecord, plan: FundingPlan, f: ChainFacts, payments: seq<FundingPayment>)
    ensures forall d :: d in Differences(a, plan, f, payments) ==> AboutPlan(d)
  {
    if |f.payments| == |plan.rows| {
      RowsAreAboutPlan(f.payments, plan.rows, |plan.rows|);
    }
    AlterationsAreAboutPlan(payments, plan.rows, |plan.rows|);
    hide RowDifferences, Alterations;
  }

  /** A mismatch leaves a finding exactly when one escrow was found, and it is the one the caller named, if any. */
  lemma FindingExactly(a: AttemptRecord, ev: Evidence, claimed: Option<nat>, payments: seq<FundingPayment>, d: seq<Difference>)
    requires Judge(a, ev, claimed, payments) == Mismatch(d)
    ensures FromPlan(d) <==> ev.resolution.Resolved? && (claimed.Some? ==> claimed.value == ev.resolution.id)
  {
    if a.plan.Some? && ev.facts.Some? {
      DifferencesAreAboutPlan(a, a.plan.value, ev.facts.value, payments);
    }
    hide Differences;
    if d == [ManyEscrows] || d == [OtherEscrowClaimed] {
      assert d[0] in d;
    }
  }

  // ----- the desk's operations are the protocol's halves, with nobody in between -----

  /** The protocol's world shows the desk's records. */
  predicate Shows(w: World, b: Books) {
    w.rows == b.attempts && w.payments == b.payments
  }

  lemma OpeningIsReadThenCommit(b: Books, batch: string, f: Funder, contract: Address, network: string, w: World, t: nat)
    requires Shows(w, b) && t !in w.openers
    ensures Shows(After(w, [OpenLook(t, batch), OpenRead(t, f), OpenCommit(t)]), Opened(b, batch, f, contract, network))
  {
    hide Blockers, FundingKey, Restate, PaymentsOf;
    EligibleExactly(RequestOf(b, batch, f));
    var two, last := [OpenLook(t, batch), OpenRead(t, f)], OpenCommit(t);
    AfterTwo(w, two[0], two[1]);
    assert [two[0], two[1], last][..2] == two;
  }

  lemma AbandoningIsReadThenCommit(b: Books, row: nat, batch: string, userRejected: bool, w: World, t: nat)
    requires Shows(w, b) && t !in w.finishers && row < |b.attempts| && b.attempts[row].batch == batch
    ensures Shows(After(w, [FailRead(t, row, userRejected), FinishCommit(t)]), Abandoned(b, row, batch, userRejected))
  {
    hide Restate;
    AfterTwo(w, FailRead(t, row, userRejected), FinishCommit(t));
  }

  /** What a verdict comes down to for the protocol. */
  function SeenIn(v: Verdict): Seen {
    match v
    case Confirmed(id) => Settled(id)
    case FailedOnChain => Reverted
    case _ => Unclear
  }

  lemma ConfirmingIsReadThenCommit(b: Books, row: nat, v: Verdict, w: World, t: nat)
    requires Shows(w, b) && t !in w.finishers
    requires row < |b.attempts| && b.attempts[row].hash.Some? && !Answered(b.attempts[row])
    ensures Shows(After(w, [ConfirmRead(t, row, SeenIn(v)), FinishCommit(t)]), Concluded(b, row, v))
  {
    AfterTwo(w, ConfirmRead(t, row, SeenIn(v)), FinishCommit(t));
    hide After, Restate, Link, Blockers, PaymentsOf, FundingKey, Latest, KeyTaken, HashTaken, Inserted;
  }

  // ----- a funded batch -----

  /**
   * With nobody in between, a batch whose payments confirmation has linked is not opened again, whatever later happens
   * to the attempt's status. An opener that had looked at the payments before still can: see the double funding results.
   */
  lemma LinkedNeverReopens(b: Books, row: nat, id: nat, f: Funder, contract: Address, network: string)
    requires row < |b.attempts| && PaymentsOf(b.payments, b.attempts[row].batch) != []
    ensures
      var batch := b.attempts[row].batch;
      var after := Concluded(b, row, Confirmed(id));
      forall status: TxStatus ::
        var reopened := after.(attempts := after.attempts[row := after.attempts[row].(status := status)]);
        Opened(reopened, batch, f, contract, network) == reopened
  {
    var batch := b.attempts[row].batch;
    var after := Concluded(b, row, Confirmed(id));
    LinkSlots(b.payments, batch);
    forall status: TxStatus ensures
        var reopened := after.(attempts := after.attempts[row := after.attempts[row].(status := status)]);
        Opened(reopened, batch, f, contract, network) == reopened
    {
      var reopened := after.(attempts := after.attempts[row := after.attempts[row].(status := status)]);
      LinkedIsBarred(PaymentsOf(reopened.payments, batch), 0, f);
      AttemptBlocks(PaymentsOf(reopened.payments, batch), LatestStatus(reopened.attempts, batch), f);
      hide Blockers;
    }
  }
}
