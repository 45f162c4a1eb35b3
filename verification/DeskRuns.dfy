/**
 * Whole runs of the funding desk: what an attempt froze when it was opened is what it is judged by, and so from opening
 * through submission and the contract to CONFIRMED.
 */
module DeskRuns {
  import opened Prelude
  import opened Escrow
  import opened ContractRuns
  import opened StateMachine
  import opened Eligibility
  import opened BatchPayments
  import opened Confirmation
  import opened Intents
  import opened FundingService
  import opened FundedRuns
  import DoubleFunding
  import Signing
  import FundingReasons

  datatype DeskOp =
    | OpenOp(batch: string, f: Funder, contract: Address, network: string)
    | ReportOp(row: nat, batch: string, txHash: string)
    | AbandonOp(row: nat, batch: string, userRejected: bool)
    | ConfirmOp(row: nat, batch: string, ev: Evidence, claimed: Option<nat>)

  function Serve(b: Books, op: DeskOp): Books {
    match op
    case OpenOp(batch, f, contract, network) => Opened(b, batch, f, contract, network)
    case ReportOp(row, batch, txHash) => Reported(b, row, batch, txHash)
    case AbandonOp(row, batch, userRejected) => Abandoned(b, row, batch, userRejected)
    case ConfirmOp(row, batch, ev, claimed) => Confirming(b, row, batch, ev, claimed)
  }

  function ServeAll(b: Books, ops: seq<DeskOp>): Books {
    if ops == [] then b else Serve(ServeAll(b, ops[..|ops| - 1]), ops[|ops| - 1])
  }

  // ----- the frozen plan -----

  /** An attempt of this batch, with what it froze; until a hash is recorded it records none. */
  ghost predicate Holds(b: Books, row: nat, batch: string, z: Frozen) {
    && row < |b.attempts| && b.attempts[row].batch == batch && row in b.frozen && b.frozen[row] == z
    && (b.attempts[row].status in NOT_SUBMITTED ==> b.attempts[row].hash == None)
  }

  lemma OpenHolds(b: Books, batch: string, f: Funder, contract: Address, network: string)
    requires |Opened(b, batch, f, contract, network).attempts| > |b.attempts|
    ensures
      var r := RequestOf(b, batch, f);
      && Blockers(r) == [] && Fundable(r)
      && Holds(Opened(b, batch, f, contract, network), |b.attempts|, batch,
               Frozen(network, Some(contract), Some(BuildFundingPlan(r, contract, network))))
      && Opened(b, batch, f, contract, network).attempts[|b.attempts|].status == AWAITING_SIGNATURE
      && Opened(b, batch, f, contract, network).payments == Restate(b.payments, batch, DRAFT, VALIDATING)
  {
    EligibleExactly(RequestOf(b, batch, f));
    hide Blockers, FundingKey, Restate, BuildFundingPlan, Fundable, KeyTaken, NextNumber;
  }

  lemma OpHolds(b: Books, op: DeskOp, row: nat, batch: string, z: Frozen)
    requires Holds(b, row, batch, z)
    ensures Holds(Serve(b, op), row, batch, z)
    ensures b.attempts[row].hash.Some? ==> Serve(b, op).attempts[row].hash == b.attempts[row].hash
  {
    hide Blockers, FundingKey, Restate, Link, BuildFundingPlan, KeyTaken, NextNumber, Judge, PaymentsOf, HashTaken, FromPlan;
    match op {
      case OpenOp(other, f, contract, network) =>
        if |Opened(b, other, f, contract, network).attempts| > |b.attempts| {
          OpenHolds(b, other, f, contract, network);
        }
      case _ =>
    }
  }

  lemma {:induction false} RunHolds(b: Books, ops: seq<DeskOp>, row: nat, batch: string, z: Frozen)
    requires Holds(b, row, batch, z)
    ensures Holds(ServeAll(b, ops), row, batch, z)
  {
    hide Serve, Holds;
    if ops != [] {
      RunHolds(b, ops[..|ops| - 1], row, batch, z);
      OpHolds(ServeAll(b, ops[..|ops| - 1]), ops[|ops| - 1], row, batch, z);
    }
  }

  /**
   * However the desk goes on, an attempt is judged by the request it was opened for: once it records a hash, its record is
   * that hash with the plan of the payments, funder, asset and approver assessed at opening.
   */
  lemma JudgedByWhatWasOpened(b: Books, batch: string, f: Funder, contract: Address, network: string, ops: seq<DeskOp>)
    requires |Opened(b, batch, f, contract, network).attempts| > |b.attempts|
    ensures
      var k, r := |b.attempts|, RequestOf(b, batch, f);
      var after := ServeAll(Opened(b, batch, f, contract, network), ops);
      && Fundable(r) && k < |after.attempts| && after.attempts[k].batch == batch
      && (after.attempts[k].hash.Some? ==> RecordOf(after, k) == FundingRecord(after.attempts[k].hash.value, r, contract, network))
  {
    hide Opened, ServeAll, Fundable, BuildFundingPlan, RequestOf;
    OpenHolds(b, batch, f, contract, network);
    RunHolds(Opened(b, batch, f, contract, network), ops, |b.attempts|, batch,
             Frozen(network, Some(contract), Some(BuildFundingPlan(RequestOf(b, batch, f), contract, network))));
  }

  /** The first report to an attempt still awaiting its signature puts its hash on it, if no other attempt has that hash; it stays. */
  lemma ReportSticks(b: Books, row: nat, batch: string, z: Frozen, txHash: string, more: seq<DeskOp>)
    requires Holds(b, row, batch, z) && b.attempts[row].status in NOT_SUBMITTED && !HashTaken(b.attempts, txHash)
    ensures
      var after := ServeAll(Serve(b, ReportOp(row, batch, txHash)), more);
      row < |after.attempts| && after.attempts[row].hash == Some(txHash)
  {
    OpHolds(b, ReportOp(row, batch, txHash), row, batch, z);
    hide Holds, ServeAll;
    HashStays(Serve(b, ReportOp(row, batch, txHash)), more, row, batch, z);
  }

  lemma {:induction false} HashStays(b: Books, ops: seq<DeskOp>, row: nat, batch: string, z: Frozen)
    requires Holds(b, row, batch, z) && row < |b.attempts| && b.attempts[row].hash.Some?
    ensures Holds(ServeAll(b, ops), row, batch, z) && ServeAll(b, ops).attempts[row].hash == b.attempts[row].hash
  {
    hide Serve, HashTaken;
    if ops != [] {
      HashStays(b, ops[..|ops| - 1], row, batch, z);
      OpHolds(ServeAll(b, ops[..|ops| - 1]), ops[|ops| - 1], row, batch, z);
    }
  }

  // ----- the payments stay the ones planned -----

  /** The desk's own writes change states and links only. */
  lemma RestateKeepsPlan(payments: seq<BatchPayment>, moved: string, from: PaymentState, to: PaymentState, batch: string, r: Request)
    requires StillPlanned(r, PaymentsOf(payments, batch))
    ensures StillPlanned(r, PaymentsOf(Restate(payments, moved, from, to), batch))
  {
    RestatedRows(payments, moved, from, to, batch);
    hide PaymentsOf, Restate;
  }

  lemma LinkKeepsPlan(payments: seq<BatchPayment>, linked: string, batch: string, r: Request)
    requires StillPlanned(r, PaymentsOf(payments, batch))
    ensures StillPlanned(r, PaymentsOf(Link(payments, linked), batch))
  {
    if linked == batch {
      LinkSlots(payments, batch);
    } else {
      LinkElsewhere(payments, linked, batch);
    }
    hide PaymentsOf, Link;
  }

  lemma OpKeepsPlan(b: Books, op: DeskOp, batch: string, r: Request)
    requires StillPlanned(r, PaymentsOf(b.payments, batch))
    ensures StillPlanned(r, PaymentsOf(Serve(b, op).payments, batch))
  {
    hide Blockers, FundingKey, Restate, Link, BuildFundingPlan, KeyTaken, NextNumber, Judge, PaymentsOf, HashTaken, FromPlan, StillPlanned;
    match op {
      case OpenOp(other, _, _, _) => RestateKeepsPlan(b.payments, other, DRAFT, VALIDATING, batch, r);
      case ReportOp(_, _, _) =>
      case AbandonOp(_, other, _) => RestateKeepsPlan(b.payments, other, VALIDATING, DRAFT, batch, r);
      case ConfirmOp(row, other, _, _) =>
        LinkKeepsPlan(b.payments, other, batch, r);
        RestateKeepsPlan(b.payments, other, VALIDATING, DRAFT, batch, r);
    }
  }

  lemma {:induction false} RunKeepsPlan(b: Books, ops: seq<DeskOp>, batch: string, r: Request)
    requires StillPlanned(r, PaymentsOf(b.payments, batch))
    ensures StillPlanned(r, PaymentsOf(ServeAll(b, ops).payments, batch))
  {
    hide Serve, StillPlanned, PaymentsOf;
    if ops != [] {
      RunKeepsPlan(b, ops[..|ops| - 1], batch, r);
      OpKeepsPlan(ServeAll(b, ops[..|ops| - 1]), ops[|ops| - 1], batch, r);
    }
  }

  // ----- end to end -----

  /** With this evidence the desk answers CONFIRMED with this escrow, records it, and links the batch in order. */
  ghost predicate ConfirmsAt(b: Books, k: nat, batch: string, ev: Evidence, claimed: Option<nat>, id: nat) {
    var after := Serve(b, ConfirmOp(k, batch, ev, claimed));
    && Answer(b, k, batch, ev, claimed) == Some(Confirmed(id))
    && k < |after.attempts| && after.attempts[k].status == CONFIRMED && after.attempts[k].escrow == Some(id) && id in after.escrows
    && var linked := PaymentsOf(after.payments, batch);
       forall i :: 0 <= i < |linked| ==> linked[i].onEscrow && linked[i].slot == Some(i)
  }

  lemma ConfirmedIsRecorded(b: Books, k: nat, batch: string, ev: Evidence, claimed: Option<nat>, id: nat)
    ensures Answer(b, k, batch, ev, claimed) == Some(Confirmed(id)) <==> ConfirmsAt(b, k, batch, ev, claimed, id)
  {
    LinkSlots(b.payments, batch);
    hide Judge, Link, PaymentsOf, RecordOf;
  }

  /** What the desk answers about an attempt held to a request's plan is what that record and these payments say. */
  lemma AnswersByRecord(b: Books, k: nat, batch: string, ev: Evidence, claimed: Option<nat>)
    requires k < |b.attempts| && b.attempts[k].batch == batch && b.attempts[k].hash.Some? && !Answered(b.attempts[k])
    ensures Answer(b, k, batch, ev, claimed) == Some(Judge(RecordOf(b, k), ev, claimed, PaymentsOf(b.payments, batch)))
  {
    hide Judge, PaymentsOf, RecordOf;
  }

  /**
   * From opening to CONFIRMED. An attempt is opened for an eligible batch; its plan is executed on a ready chain; the desk
   * goes on however it likes, the attempt recording the transaction's hash and not yet answered; the chain goes on however
   * it likes. Then confirming with that transaction's evidence answers CONFIRMED with that escrow, records it and links the
   * batch's payments in order, if and only if the escrow has not been cancelled.
   */
  lemma OpenedIsConfirmed(b: Books, batch: string, f: Funder, network: string, ops: seq<DeskOp>, h: Host, s: Chain, st: Step,
                          more: Trace, hash: string, others: seq<TransferFact>, claimed: Option<nat>)
    requires |Opened(b, batch, f, h.contract, network).attempts| > |b.attempts| && DistinctIds(PaymentsOf(b.payments, batch))
    requires
      var after := ServeAll(Opened(b, batch, f, h.contract, network), ops);
      |b.attempts| < |after.attempts| && after.attempts[|b.attempts|].hash == Some(hash) && !Answered(after.attempts[|b.attempts|])
    requires Structured(h, s) && Outside(h, st) && EntersUnpaid(st) && Admissible(h, more)
    requires ExecutesPlan(h, s, st, RequestOf(b, batch, f)) && (claimed.Some? ==> claimed.value == s.escrowCount + 1)
    ensures
      var id, later := s.escrowCount + 1, Run(h, Do(h, s, st).1, more);
      var after := ServeAll(Opened(b, batch, f, h.contract, network), ops);
      && id in later.escrows
      && (ConfirmsAt(after, |b.attempts|, batch, FundingEvidence(hash, RequestOf(b, batch, f), h.contract, id, later.escrows[id], others), claimed, id)
          <==> !later.escrows[id].cancelled)
  {
    hide Run, Do, Judge, ExecutesPlan, FundingRecord, FundingEvidence, StillPlanned, Fundable, Storable, MovesTotal, Structured, Opened;
    hide ServeAll, PaymentsOf, Answer, ConfirmsAt, RecordOf, Answered, Restate, Serve, Admissible, DistinctIds;
    var k, r := |b.attempts|, RequestOf(b, batch, f);
    var after := ServeAll(Opened(b, batch, f, h.contract, network), ops);
    JudgedByWhatWasOpened(b, batch, f, h.contract, network, ops);
    StaysPlanned(b, batch, f, h.contract, network, ops);
    EligibleIsConfirmed(h, s, st, more, r, network, hash, others, claimed, PaymentsOf(after.payments, batch));
    var id := s.escrowCount + 1;
    var ev := FundingEvidence(hash, r, h.contract, id, Run(h, Do(h, s, st).1, more).escrows[id], others);
    AnswersByRecord(after, k, batch, ev, claimed);
    ConfirmedIsRecorded(after, k, batch, ev, claimed, id);
  }

  lemma StaysPlanned(b: Books, batch: string, f: Funder, contract: Address, network: string, ops: seq<DeskOp>)
    requires |Opened(b, batch, f, contract, network).attempts| > |b.attempts| && DistinctIds(PaymentsOf(b.payments, batch))
    ensures StillPlanned(RequestOf(b, batch, f), PaymentsOf(ServeAll(Opened(b, batch, f, contract, network), ops).payments, batch))
  {
    var r := RequestOf(b, batch, f);
    OwnPayments(r);
    hide StillPlanned, DistinctIds, Opened, ServeAll, PaymentsOf, Restate, Holds, Fundable;
    OpenHolds(b, batch, f, contract, network);
    RestateKeepsPlan(b.payments, batch, DRAFT, VALIDATING, batch, r);
    RunKeepsPlan(Opened(b, batch, f, contract, network), ops, batch, r);
  }

  // ----- and again -----

  /** The desk as it starts: payments, and nothing opened. */
  function Fresh(payments: seq<BatchPayment>): Books {
    Books([], map[], payments, {}, [])
  }

  lemma OpKeyed(b: Books, op: DeskOp)
    requires Keyed(b.attempts)
    ensures Keyed(Serve(b, op).attempts)
  {
    hide Blockers, FundingKey, Restate, Link, BuildFundingPlan, KeyTaken, NextNumber, Judge, PaymentsOf, HashTaken, FromPlan;
    match op {
      case OpenOp(batch, f, contract, network) => NumberedFromOne(b.attempts, batch);
      case _ =>
    }
  }

  lemma NumberedFromOne(rows: seq<Attempt>, batch: string)
    ensures NextNumber(rows, batch) >= 1
  {
    hide Latest;
  }

  lemma {:induction false} RunKeyed(payments: seq<BatchPayment>, ops: seq<DeskOp>)
    ensures Keyed(ServeAll(Fresh(payments), ops).attempts)
  {
    hide Serve, Keyed;
    if ops == [] {
      NoneKeyed();
    } else {
      RunKeyed(payments, ops[..|ops| - 1]);
      OpKeyed(ServeAll(Fresh(payments), ops[..|ops| - 1]), ops[|ops| - 1]);
    }
  }

  lemma NoneKeyed()
    ensures Keyed([])
  {
  }

  /** This operation gave the attempt up: its transaction failed on-chain, or it was abandoned with none recorded. */
  ghost predicate GivesUp(b: Books, op: DeskOp, row: nat) {
    && row < |b.attempts|
    && match op
       case ConfirmOp(r, batch, ev, claimed) => r == row && Answer(b, r, batch, ev, claimed) == Some(FailedOnChain)
       case AbandonOp(r, batch, _) => r == row && batch == b.attempts[row].batch && b.attempts[row].status != CONFIRMED && b.attempts[row].hash == None
       case _ => false
  }

  /** Giving up finishes the attempt and returns the batch's payments in review to drafts; nothing else changes. */
  lemma GivesUpExactly(b: Books, op: DeskOp, row: nat)
    requires GivesUp(b, op, row)
    ensures
      var after, batch := Serve(b, op), b.attempts[row].batch;
      && after.attempts == b.attempts[row := b.attempts[row].(status := after.attempts[row].status)]
      && after.attempts[row].status in {FAILED, TX_CANCELLED}
      && after.payments == Restate(b.payments, batch, VALIDATING, DRAFT)
      && after.frozen == b.frozen && after.escrows == b.escrows && after.findings == b.findings
  {
    hide Judge, Restate, PaymentsOf, RecordOf;
  }

  /**
   * A batch whose latest attempt was given up can be funded again: whoever it was clear for opens the next attempt, under
   * the next number, and its payments are in review again.
   */
  lemma GivenUpIsReopened(payments: seq<BatchPayment>, ops: seq<DeskOp>, op: DeskOp, row: nat, f: Funder, contract: Address, network: string)
    requires var b := ServeAll(Fresh(payments), ops); GivesUp(b, op, row)
    requires
      var b := ServeAll(Fresh(payments), ops);
      var batch := b.attempts[row].batch;
      && Latest(b.attempts, batch) == Some(row) && ClearFor(PaymentsOf(b.payments, batch), f)
      && forall i :: 0 <= i < |b.attempts| ==> NoColon(b.attempts[i].batch)
    ensures
      var b := ServeAll(Fresh(payments), ops);
      var batch := b.attempts[row].batch;
      var after := Serve(Serve(b, op), OpenOp(batch, f, contract, network));
      && |after.attempts| == |b.attempts| + 1
      && after.attempts[|b.attempts|] == Attempt(batch, b.attempts[row].number + 1, FundingKey(batch, b.attempts[row].number + 1), AWAITING_SIGNATURE, None, None)
      && forall i :: 0 <= i < |PaymentsOf(after.payments, batch)| ==> PaymentsOf(after.payments, batch)[i].state == VALIDATING
  {
    hide ServeAll, Judge, Restate, PaymentsOf, RecordOf, FundingKey, Blockers, Latest, KeyTaken, BuildFundingPlan, ClearFor, Keyed;
    var b := ServeAll(Fresh(payments), ops);
    var batch, mid := b.attempts[row].batch, Serve(b, op);
    RunKeyed(payments, ops);
    OpKeyed(b, op);
    GivesUpExactly(b, op, row);
    Signing.LatestUnmoved(b.attempts, mid.attempts, batch);
    DoubleFunding.NextKeyIsFree(mid.attempts, batch);
    RestateKeepsClear(b.payments, batch, VALIDATING, DRAFT, batch, f);
    AttemptBlocks(PaymentsOf(mid.payments, batch), LatestStatus(mid.attempts, batch), f);
    OpensNext(mid, batch, f, contract, network);
    AllInReview(mid, batch, f);
  }

  lemma OpensNext(b: Books, batch: string, f: Funder, contract: Address, network: string)
    requires Blockers(RequestOf(b, batch, f)) == [] && !KeyTaken(b.attempts, FundingKey(batch, NextNumber(b.attempts, batch)))
    ensures
      var after, n := Opened(b, batch, f, contract, network), NextNumber(b.attempts, batch);
      && after.attempts == b.attempts + [Attempt(batch, n, FundingKey(batch, n), AWAITING_SIGNATURE, None, None)]
      && after.payments == Restate(b.payments, batch, DRAFT, VALIDATING)
  {
    hide Blockers, Restate, FundingKey, KeyTaken, NextNumber, BuildFundingPlan;
  }

  lemma AllInReview(b: Books, batch: string, f: Funder)
    requires Blockers(RequestOf(b, batch, f)) == []
    ensures
      var after := PaymentsOf(Restate(b.payments, batch, DRAFT, VALIDATING), batch);
      forall i :: 0 <= i < |after| ==> after[i].state == VALIDATING
  {
    EligibleExactly(RequestOf(b, batch, f));
    RestatedRows(b.payments, batch, DRAFT, VALIDATING, batch);
    hide Blockers, Restate, PaymentsOf;
    var before := PaymentsOf(b.payments, batch);
    forall i | 0 <= i < |before| ensures before[i].state == DRAFT || before[i].state == VALIDATING {
      assert FundableRow(RequestOf(b, batch, f), before[i]);
    }
  }

  // ----- what opening answers -----

  lemma InFlightAlone(payments: seq<FundingPayment>, status: TxStatus, f: Funder)
    requires status in IN_FLIGHT
    ensures
      var blockers := Blockers(Asked(payments, Some(status), f));
      blockers != [] && ((forall i :: 0 <= i < |blockers| ==> blockers[i].code == FUNDING_IN_FLIGHT) <==> ClearFor(payments, f))
  {
    hide Blockers, FundingReasons.WrongWithBatch, FundingReasons.WrongWithRow;
    var r, free := Asked(payments, Some(status), f), Asked(payments, None, f);
    InFlightIsABlocker(r);
    if ClearFor(payments, f) {
      forall i | 0 <= i < |Blockers(r)| ensures Blockers(r)[i].code == FUNDING_IN_FLIGHT {
        var b := Blockers(r)[i];
        OnlyAttemptDiffers(payments, status, f, b);
        assert b in Blockers(r);
      }
    } else {
      var b := Blockers(free)[0];
      assert b in Blockers(free);
      NeverInFlight(payments, status, f, b);
      var i :| 0 <= i < |Blockers(r)| && Blockers(r)[i] == b;
    }
  }

  /** A blocker other than the attempt's is one with or without the attempt. */
  lemma OnlyAttemptDiffers(payments: seq<FundingPayment>, status: TxStatus, f: Funder, b: Blocker)
    requires status in IN_FLIGHT && b in Blockers(Asked(payments, Some(status), f)) && ClearFor(payments, f)
    ensures b.code == FUNDING_IN_FLIGHT
  {
    SameButAttempt(payments, status, f, b);
    hide Blockers;
  }

  lemma NeverInFlight(payments: seq<FundingPayment>, status: TxStatus, f: Funder, b: Blocker)
    requires status in IN_FLIGHT && b in Blockers(Asked(payments, None, f))
    ensures b in Blockers(Asked(payments, Some(status), f)) && b.code != FUNDING_IN_FLIGHT
  {
    SameButAttempt(payments, status, f, b);
    hide Blockers;
  }

  lemma SameWrongs(payments: seq<FundingPayment>, status: TxStatus, f: Funder, code: BlockerCode)
    requires status in IN_FLIGHT
    ensures
      var r, free := Asked(payments, Some(status), f), Asked(payments, None, f);
      && (code != FUNDING_IN_FLIGHT ==> (FundingReasons.WrongWithBatch(r, code) <==> FundingReasons.WrongWithBatch(free, code)))
      && !FundingReasons.WrongWithBatch(free, FUNDING_IN_FLIGHT)
      && forall i :: 0 <= i < |payments| ==>
           FundingReasons.WrongWithRow(r, payments[i], code) == FundingReasons.WrongWithRow(free, payments[i], code)
           && !FundingReasons.WrongWithRow(free, payments[i], FUNDING_IN_FLIGHT)
  {
  }

  lemma SameButAttempt(payments: seq<FundingPayment>, status: TxStatus, f: Funder, b: Blocker)
    requires status in IN_FLIGHT
    ensures
      var r, free := Asked(payments, Some(status), f), Asked(payments, None, f);
      && (b.code != FUNDING_IN_FLIGHT ==> (b in Blockers(r) <==> b in Blockers(free)))
      && (b in Blockers(free) ==> b.code != FUNDING_IN_FLIGHT)
  {
    hide Blockers, FundingReasons.WrongWithBatch, FundingReasons.WrongWithRow, FundingReasons.InRowOrder;
    var r, free := Asked(payments, Some(status), f), Asked(payments, None, f);
    var position := if b.position.Some? then b.position.value else 0;
    SameWrongs(payments, status, f, b.code);
    FundingReasons.BlockersTell(r, b.code, position);
    FundingReasons.BlockersTell(free, b.code, position);
    assert b == if b.position == None then Blocker(b.code, None) else Blocker(b.code, Some(position));
  }

  /**
   * Opening answers with the latest attempt if and only if it is in flight and the batch would otherwise be clear, or its
   * next key is taken; it creates one exactly when nothing stands in the way; and otherwise says everything that does.
   */
  lemma ReplyExactly(b: Books, batch: string, f: Funder, contract: Address, network: string)
    ensures
      var o, after, latest := Reply(b, batch, f), Opened(b, batch, f, contract, network), Latest(b.attempts, batch);
      var clear := ClearFor(PaymentsOf(b.payments, batch), f);
      var flying := latest.Some? && b.attempts[latest.value].status in IN_FLIGHT;
      var room := latest.Some? ==> b.attempts[latest.value].status !in IN_FLIGHT && b.attempts[latest.value].status != CONFIRMED;
      var taken := KeyTaken(b.attempts, FundingKey(batch, NextNumber(b.attempts, batch)));
      && (o.Created? <==> clear && room && !taken)
      && (o.Existing? <==> clear && latest.Some? && (flying || (room && taken)))
      && (o.Created? ==> o.row == |b.attempts| && |after.attempts| == |b.attempts| + 1)
      && (!o.Created? ==> after == b)
      && (o.Existing? ==> Some(o.row) == latest)
      && (o.Refused? ==> o.blockers == Blockers(RequestOf(b, batch, f)))
  {
    hide Blockers, FundingKey, KeyTaken, NextNumber, PaymentsOf, ClearFor, Restate, BuildFundingPlan, Latest;
    var ps, latest := PaymentsOf(b.payments, batch), Latest(b.attempts, batch);
    AttemptBlocks(ps, LatestStatus(b.attempts, batch), f);
    EligibleExactly(RequestOf(b, batch, f));
    if latest.Some? && b.attempts[latest.value].status in IN_FLIGHT {
      InFlightAlone(ps, b.attempts[latest.value].status, f);
    }
  }

  /**
   * An attempt is reached only through its own batch, and once: named with another batch, or past the end, it is neither
   * reported, abandoned nor confirmed; confirming answers exactly when it records a transaction and has not been answered.
   */
  lemma ReachedThroughItsBatch(b: Books, row: nat, batch: string, txHash: string, userRejected: bool, ev: Evidence, claimed: Option<nat>)
    ensures
      var mine := row < |b.attempts| && b.attempts[row].batch == batch;
      && (!mine ==> Serve(b, ReportOp(row, batch, txHash)) == Serve(b, AbandonOp(row, batch, userRejected)) == Serve(b, ConfirmOp(row, batch, ev, claimed)) == b)
      && (Answer(b, row, batch, ev, claimed).Some?
          <==> mine && b.attempts[row].hash.Some? && !(b.attempts[row].status == CONFIRMED && b.attempts[row].escrow.Some?))
      && (mine && b.attempts[row].status == CONFIRMED ==> Serve(b, AbandonOp(row, batch, userRejected)) == b)
  {
    hide Judge, Restate, Link, PaymentsOf, RecordOf, HashTaken;
  }
}
