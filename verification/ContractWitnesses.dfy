/** Short concrete runs of the contract that reach what the exact results speak of. */
module ContractWitnesses {
  import opened Prelude
  import opened ByteStrings
  import opened Escrow
  import opened ContractRuns
  import opened StateMachine
  import opened Events
  import opened Projection
  import opened Refinement
  import opened MirrorRuns
  import opened Payability

  const CONTRACT := Address("contract")
  const MANAGER := Address("manager")
  const FINANCE := Address("finance")
  const WORKER := Address("worker")
  const TOKEN := Address("token")
  const KEY: Bytes := []

  /** No administrator, so any oracle key is accepted; every signature verifies. */
  const HOST := Host(CONTRACT, [], _ => [], (_, _, _) => true, None)

  /** One hour at a rate of one hundred. */
  const ROW := PaymentSchedule(1, WORKER, TOKEN, 100, 0, 1, 0, 100, false, Pending)

  const OPENING: Balances := map[(TOKEN, MANAGER) := 100]

  const CREATE := Step(Invocation({MANAGER}, {}), InitializeCall(MANAGER, FINANCE, KEY, [ROW]))
  const PROVE := Step(Invocation({}, {}), SubmitCall(1, 0, 1, 0, []))
  const BY_MANAGER := Step(Invocation({MANAGER}, {}), ManagerApproveCall(1))
  const BY_FINANCE := Step(Invocation({FINANCE}, {}), FinanceApproveCall(1))
  const ROTATE := Step(Invocation({MANAGER}, {}), RotateCall(1, KEY))
  const PAY := Step(Invocation({MANAGER}, {}), PayCall(1))

  ghost predicate AllSucceed(tr: Trace) {
    forall i :: 0 <= i < |tr| ==> Succeeds(HOST, Genesis(OPENING), tr, i)
  }

  function Reached(tr: Trace): Chain {
    Run(HOST, Genesis(OPENING), tr)
  }

  lemma OneMore(tr: Trace, st: Step)
    requires AllSucceed(tr) && Do(HOST, Reached(tr), st).0
    ensures AllSucceed(tr + [st]) && Reached(tr + [st]) == Do(HOST, Reached(tr), st).1
  {
    hide Do;
    var all := tr + [st];
    assert all[..|tr|] == tr;
    forall i | 0 <= i < |all| ensures Succeeds(HOST, Genesis(OPENING), all, i) {
      if i < |tr| {
        assert all[..i] == tr[..i];
        assert Succeeds(HOST, Genesis(OPENING), tr, i);
      }
    }
  }

  /** What the runs below share: the escrow, its nonce and the custody behind it. */
  ghost predicate Holds(s: Chain, e: CoreFlowEscrow, nonce: nat) {
    && !s.paused && s.admin == None && s.escrowCount == 1
    && s.escrows == map[1 := e] && s.nonces == map[1 := nonce]
    && Bal(s.balances, TOKEN, CONTRACT) == 100 && Bal(s.balances, TOKEN, WORKER) == 0
  }

  const FUNDED := NewEscrow(MANAGER, FINANCE, KEY, [ROW])

  function OneRow(status: PaymentStatus): Rows {
    [ROW.(status := status)]
  }

  lemma RowChecks(status: PaymentStatus)
    ensures CheckRows(OneRow(status)) == Ok(100) && TokenSum(OneRow(status), TOKEN) == 100 && Tokens(OneRow(status)) == {TOKEN}
  {
    var rows := OneRow(status);
    assert rows[..0] == [];
    assert CheckRows(rows[..0]) == Ok(0) && TokenSum(rows[..0], TOKEN) == 0;
    assert rows[0].token == TOKEN;
  }

  lemma RowMoves(status: PaymentStatus)
    ensures ShiftAllowed(OPENING, CREATE.inv, OneRow(status), MANAGER, CONTRACT)
    ensures Bal(Shift(OPENING, OneRow(status), MANAGER, CONTRACT), TOKEN, CONTRACT) == 100
    ensures Bal(Shift(OPENING, OneRow(status), MANAGER, CONTRACT), TOKEN, WORKER) == 0
  {
    hide TokenSum, Tokens;
    RowChecks(status);
  }

  lemma Creates()
    ensures Do(HOST, Genesis(OPENING), CREATE).0 && Holds(Do(HOST, Genesis(OPENING), CREATE).1, FUNDED, 0)
  {
    hide CheckRows, TokenSum, Tokens, Shift, ShiftAllowed, CreationEvents;
    assert [ROW] == OneRow(Pending);
    RowChecks(Pending);
    RowMoves(Pending);
    OnEscrowStep(HOST, Genesis(OPENING), CREATE);
  }

  lemma Proves(s: Chain)
    requires Holds(s, FUNDED, 0)
    ensures Do(HOST, s, PROVE).0
    ensures Holds(Do(HOST, s, PROVE).1, FUNDED.(payments := [ROW.(hoursLogged := 1, proofVerified := true)]), 1)
  {
    hide OracleMessage.ProofMessage;
    OnEscrowStep(HOST, s, PROVE);
    assert [ROW][0 := ROW.(hoursLogged := 1, proofVerified := true)] == [ROW.(hoursLogged := 1, proofVerified := true)];
  }

  lemma ManagerApproves(s: Chain, e: CoreFlowEscrow, nonce: nat)
    requires Holds(s, e, nonce) && e.manager == MANAGER && !e.managerApproved && !e.cancelled
    ensures Do(HOST, s, BY_MANAGER).0 && Holds(Do(HOST, s, BY_MANAGER).1, e.(managerApproved := true), nonce)
  {
    OnEscrowStep(HOST, s, BY_MANAGER);
  }

  lemma FinanceApproves(s: Chain, e: CoreFlowEscrow, nonce: nat)
    requires Holds(s, e, nonce) && e.financeApprover == FINANCE && !e.financeApproved && !e.cancelled
    ensures Do(HOST, s, BY_FINANCE).0 && Holds(Do(HOST, s, BY_FINANCE).1, e.(financeApproved := true), nonce)
  {
    OnEscrowStep(HOST, s, BY_FINANCE);
  }

  lemma Rotates(s: Chain, e: CoreFlowEscrow, nonce: nat)
    requires Holds(s, e, nonce) && e.manager == MANAGER && !e.cancelled && !AnyFinalized(e.payments) && e.oracleRotations == 0
    ensures Do(HOST, s, ROTATE).0
    ensures Holds(Do(HOST, s, ROTATE).1, e.(oraclePubkey := KEY, oracleRotations := 1, payments := Revoked(e.payments)), nonce)
  {
    OnEscrowStep(HOST, s, ROTATE);
  }

  lemma Pays(s: Chain, e: CoreFlowEscrow)
    requires Holds(s, e, 1) && e.manager == MANAGER && e.financeApprover == FINANCE && e.managerApproved && e.financeApproved && !e.cancelled
    requires e.payments == [ROW.(hoursLogged := 1, proofVerified := true)]
    ensures Do(HOST, s, PAY).0
    ensures Do(HOST, s, PAY).1.escrows == map[1 := e.(payments := WithStatus(e.payments, Finalized))]
  {
    assert e.payments[..0] == [];
    assert PayRows(s.balances, PAY.inv, CONTRACT, e.payments[..0]) == Some(s.balances);
    assert PayGuard(e.payments).Ok?;
    assert PayRows(s.balances, PAY.inv, CONTRACT, e.payments).Some?;
    assert Total(e.payments) == 100;
    OnEscrowStep(HOST, s, PAY);
    hide PaidEvents;
  }

  // ----- a funded escrow dies -----

  /** Approved before its row was proven: funded, and never paid again; only cancelling is left. */
  lemma ApprovedTooEarlyDies()
    ensures
      var tr := [CREATE, BY_MANAGER];
      var s := Reached(tr);
      && Admissible(HOST, tr) && AllSucceed(tr) && Bal(s.balances, TOKEN, CONTRACT) == 100
      && 1 in s.escrows && StillRefundable(s.escrows[1])
      && forall more: Trace :: !PaysLast(HOST, s, more, 1)
  {
    hide Do, Run;
    StartsEmpty();
    Creates();
    OneMore([], CREATE);
    assert [] + [CREATE] == [CREATE];
    ManagerApproves(Reached([CREATE]), FUNDED, 0);
    OneMore([CREATE], BY_MANAGER);
    assert [CREATE] + [BY_MANAGER] == [CREATE, BY_MANAGER];
    FromThese([CREATE, BY_MANAGER]);
    Dies([CREATE, BY_MANAGER]);
  }

  /** Every run made of these steps is admissible, and creates the escrow from a pending, unproven row. */
  lemma FromThese(tr: Trace)
    requires forall st :: st in tr ==> st == CREATE || st == PROVE || st == BY_MANAGER || st == BY_FINANCE || st == ROTATE || st == PAY
    ensures Admissible(HOST, tr) && EntersPending(HOST, Genesis(OPENING), tr, 1)
  {
    hide Founds;
    assert [ROW][0].status == Pending;
    forall i | 0 <= i < |tr| ensures Outside(HOST, tr[i]) && EntersUnpaid(tr[i]) && RowsEnterPending(tr[i]) {
      assert tr[i] in tr;
    }
  }

  lemma StartsEmpty()
    ensures Reached([]) == Genesis(OPENING) && AllSucceed([])
  {
  }

  lemma Dies(tr: Trace)
    requires Admissible(HOST, tr)
    requires
      var s := Reached(tr);
      && 1 in s.escrows && s.escrows[1].managerApproved && !s.escrows[1].cancelled
      && |s.escrows[1].payments| == 1 && !s.escrows[1].payments[0].proofVerified && s.escrows[1].payments[0].status == Pending
    ensures 1 in Reached(tr).escrows && StillRefundable(Reached(tr).escrows[1])
    ensures forall more: Trace :: !PaysLast(HOST, Reached(tr), more, 1)
  {
    hide Do, Run, Sane;
    var s := Reached(tr);
    ReachableSane(HOST, OPENING, tr);
    assert !AllProven(s.escrows[1].payments);
    forall more: Trace ensures !PaysLast(HOST, s, more, 1) {
      if Admissible(HOST, more) {
        NeverPays(HOST, s, more, 1);
      }
    }
  }

  /** Proven and approved, then its key rotated: funded, and never paid again. */
  lemma RotatedAfterApprovalDies()
    ensures
      var tr := [CREATE, PROVE, BY_MANAGER, ROTATE];
      var s := Reached(tr);
      && Admissible(HOST, tr) && AllSucceed(tr) && Bal(s.balances, TOKEN, CONTRACT) == 100
      && 1 in s.escrows && StillRefundable(s.escrows[1])
      && forall more: Trace :: !PaysLast(HOST, s, more, 1)
  {
    hide Do, Run;
    Proven();
    var e := FUNDED.(payments := [ROW.(hoursLogged := 1, proofVerified := true)]);
    ManagerApproves(Reached([CREATE, PROVE]), e, 1);
    OneMore([CREATE, PROVE], BY_MANAGER);
    assert [CREATE, PROVE] + [BY_MANAGER] == [CREATE, PROVE, BY_MANAGER];
    Rotates(Reached([CREATE, PROVE, BY_MANAGER]), e.(managerApproved := true), 1);
    OneMore([CREATE, PROVE, BY_MANAGER], ROTATE);
    assert [CREATE, PROVE, BY_MANAGER] + [ROTATE] == [CREATE, PROVE, BY_MANAGER, ROTATE];
    FromThese([CREATE, PROVE, BY_MANAGER, ROTATE]);
    Dies([CREATE, PROVE, BY_MANAGER, ROTATE]);
  }

  lemma Proven()
    ensures AllSucceed([CREATE, PROVE])
    ensures Holds(Reached([CREATE, PROVE]), FUNDED.(payments := [ROW.(hoursLogged := 1, proofVerified := true)]), 1)
  {
    hide Do, Run;
    StartsEmpty();
    Creates();
    OneMore([], CREATE);
    assert [] + [CREATE] == [CREATE];
    Proves(Reached([CREATE]));
    OneMore([CREATE], PROVE);
    assert [CREATE] + [PROVE] == [CREATE, PROVE];
  }

  // ----- custody that nothing releases -----

  const HALF := [ROW.(status := Finalized), ROW]

  const CREATE_HALF := Step(Invocation({MANAGER}, {}), InitializeCall(MANAGER, FINANCE, KEY, HALF))

  const DOUBLE: Balances := map[(TOKEN, MANAGER) := 200]

  lemma HalfChecks()
    ensures CheckRows(HALF) == Ok(200)
  {
    var one := [HALF[0]];
    assert one[..0] == [] && HALF[..1] == one;
    assert CheckRows(one[..0]) == Ok(0);
    assert CheckRows(one) == Ok(100);
  }

  lemma HalfSums()
    ensures TokenSum(HALF, TOKEN) == 200 && Tokens(HALF) == {TOKEN}
  {
    var one := [HALF[0]];
    assert one[..0] == [] && HALF[..1] == one;
    assert TokenSum(one[..0], TOKEN) == 0;
    assert TokenSum(one, TOKEN) == 100;
    assert HALF[0].token == TOKEN && HALF[1].token == TOKEN;
  }

  lemma HalfMoves()
    ensures ShiftAllowed(DOUBLE, CREATE_HALF.inv, HALF, MANAGER, CONTRACT)
    ensures Bal(Shift(DOUBLE, HALF, MANAGER, CONTRACT), TOKEN, CONTRACT) == 200
  {
    hide TokenSum, Tokens;
    HalfSums();
  }

  lemma CreatesHalf()
    ensures
      var s := Do(HOST, Genesis(DOUBLE), CREATE_HALF);
      && s.0 && s.1.escrows == map[1 := NewEscrow(MANAGER, FINANCE, KEY, HALF)]
      && Bal(s.1.balances, TOKEN, CONTRACT) == 200
  {
    hide CheckRows, TokenSum, Tokens, Shift, ShiftAllowed, CreationEvents;
    HalfChecks();
    HalfMoves();
    OnEscrowStep(HOST, Genesis(DOUBLE), CREATE_HALF);
  }

  /** One of two rows entered already finalized: the escrow is funded, and no run ever pays it or returns it. */
  lemma PartlyFinalizedIsTrapped()
    ensures
      var tr := [CREATE_HALF];
      var s := Run(HOST, Genesis(DOUBLE), tr);
      && Admissible(HOST, tr) && Succeeds(HOST, Genesis(DOUBLE), tr, 0)
      && 1 in s.escrows && Bal(s.balances, TOKEN, CONTRACT) == 200
      && forall more: Trace :: !PaysLast(HOST, s, more, 1) && !RefundsLast(HOST, s, more, 1)
  {
    hide Do, Sane;
    var tr, s0 := [CREATE_HALF], Genesis(DOUBLE);
    CreatesHalf();
    assert tr[..0] == [] && Run(HOST, s0, tr[..0]) == s0;
    RunOne(HOST, s0, CREATE_HALF);
    assert HALF[1].status == Pending && HALF[0].status == Finalized;
    assert Admissible(HOST, tr);
    ReachableSane(HOST, DOUBLE, tr);
    hide Run;
    var s := Run(HOST, s0, tr);
    assert AnyFinalized(s.escrows[1].payments);
    forall more: Trace ensures !PaysLast(HOST, s, more, 1) && !RefundsLast(HOST, s, more, 1) {
      if Admissible(HOST, more) {
        NeverPays(HOST, s, more, 1);
        NeverRefunded(HOST, s, more, 1);
      }
    }
  }

  const CREATE_MARKED := Step(Invocation({MANAGER}, {}), InitializeCall(MANAGER, FINANCE, KEY, OneRow(Finalized)))

  lemma CreatesMarked()
    ensures
      var (ok, s) := Do(HOST, Genesis(OPENING), CREATE_MARKED);
      ok && Bal(s.balances, TOKEN, CONTRACT) == 100
  {
    hide CheckRows, TokenSum, Tokens, Shift, ShiftAllowed, CreationEvents;
    RowChecks(Finalized);
    RowMoves(Finalized);
    OnEscrowStep(HOST, Genesis(OPENING), CREATE_MARKED);
  }

  /** Every row entered already finalized: accepted and funded all the same, and no later call ever releases the custody. */
  lemma WhollyFinalizedIsTrapped(more: Trace, j: nat)
    requires j < |more|
    ensures
      var tr := [CREATE_MARKED] + more;
      && Succeeds(HOST, Genesis(OPENING), tr, 0) && Bal(Run(HOST, Genesis(OPENING), tr[..1]).balances, TOKEN, CONTRACT) == 100
      && (more[j].call == PayCall(1) || more[j].call == CancelCall(1) ==> !Succeeds(HOST, Genesis(OPENING), tr, j + 1))
  {
    hide Do;
    var tr := [CREATE_MARKED] + more;
    CreatesMarked();
    RunOne(HOST, Genesis(OPENING), CREATE_MARKED);
    assert tr[..1] == [CREATE_MARKED];
    assert tr[..0] == [] && Run(HOST, Genesis(OPENING), tr[..0]) == Genesis(OPENING);
    assert OneRow(Finalized)[0].status == Finalized;
    EnteredFinalizedIsNeverReleased(HOST, Genesis(OPENING), tr, 0, j + 1, 1);
  }

  // ----- finance approves first, and the escrow is paid -----

  const PROVEN := FUNDED.(payments := [ROW.(hoursLogged := 1, proofVerified := true)])

  lemma {:induction false} FirstStays(log: seq<ContractEvent>, more: seq<ContractEvent>, id: nat)
    requires FirstApprover(log, id).Some?
    ensures FirstApprover(log + more, id) == FirstApprover(log, id)
  {
    hide ParseEvent;
    if more == [] {
      assert log + more == log;
    } else {
      FirstStays(log, more[..|more| - 1], id);
      assert (log + more)[..|log + more| - 1] == log + more[..|more| - 1];
    }
  }

  lemma LogGrows(s: Chain, st: Step)
    requires st.call.OnEscrow()
    ensures |s.log| <= |Do(HOST, s, st).1.log| && Do(HOST, s, st).1.log[..|s.log|] == s.log
  {
    OnEscrowStep(HOST, s, st);
    hide EffectOf, Do;
  }

  lemma FirstKept(s: Chain, st: Step)
    requires st.call.OnEscrow() && FirstApprover(s.log, 1).Some?
    ensures FirstApprover(Do(HOST, s, st).1.log, 1) == FirstApprover(s.log, 1)
  {
    hide Do, FirstApprover;
    LogGrows(s, st);
    var log := Do(HOST, s, st).1.log;
    assert log == s.log + log[|s.log|..];
    FirstStays(s.log, log[|s.log|..], 1);
  }

  /** A picture in which only finance has approved shows finance first. */
  lemma OnlyFinance(v0: View, s: Chain)
    requires Tracks(v0, s, 1) && s.escrows[1].financeApproved && !s.escrows[1].managerApproved
    ensures FirstApprover(s.log, 1) == Some(ByFinance)
  {
    hide Mirrors, FirstApprover;
    match FirstApprover(s.log, 1) {
      case None =>
      case Some(a) => assert a == ByManager || a == ByFinance;
    }
  }

  lemma PaidFinanceFirst()
    ensures
      var tr := [CREATE, PROVE, BY_FINANCE, BY_MANAGER, PAY];
      && AllSucceed(tr) && AllSucceed(tr[..3])
      && Holds(Reached(tr[..3]), PROVEN.(financeApproved := true), 1)
      && Reached(tr).escrows == map[1 := PROVEN.(managerApproved := true, financeApproved := true, payments := WithStatus(PROVEN.payments, Finalized))]
      && (FirstApprover(Reached(tr[..3]).log, 1).Some? ==> FirstApprover(Reached(tr).log, 1) == FirstApprover(Reached(tr[..3]).log, 1))
  {
    hide Do, Run, FirstApprover;
    Proven();
    FinanceApproves(Reached([CREATE, PROVE]), PROVEN, 1);
    OneMore([CREATE, PROVE], BY_FINANCE);
    var three, four := [CREATE, PROVE, BY_FINANCE], [CREATE, PROVE, BY_FINANCE, BY_MANAGER];
    assert [CREATE, PROVE] + [BY_FINANCE] == three;
    ManagerApproves(Reached(three), PROVEN.(financeApproved := true), 1);
    OneMore(three, BY_MANAGER);
    assert three + [BY_MANAGER] == four;
    Pays(Reached(four), PROVEN.(managerApproved := true, financeApproved := true));
    OneMore(four, PAY);
    assert four + [PAY] == [CREATE, PROVE, BY_FINANCE, BY_MANAGER, PAY];
    assert [CREATE, PROVE, BY_FINANCE, BY_MANAGER, PAY][..3] == three;
    if FirstApprover(Reached(three).log, 1).Some? {
      FirstKept(Reached(three), BY_MANAGER);
      FirstKept(Reached(four), PAY);
    }
  }

  /**
   * A settled row that the database never shows PAID, reached by a run in which everything succeeds: created from a
   * pending row, proven, approved by finance, then by the manager, then paid.
   */
  lemma FinanceFirstIsReached(v0: View)
    requires Unobserved(v0) && v0.payments == map[]
    ensures
      var tr := [CREATE, PROVE, BY_FINANCE, BY_MANAGER, PAY];
      var s := Reached(tr);
      var v := Replayed(v0, s.log, 1);
      && Admissible(HOST, tr) && EntersPending(HOST, Genesis(OPENING), tr, 1) && AllSucceed(tr)
      && 1 in s.escrows && |s.escrows[1].payments| == 1 && s.escrows[1].payments[0].status == Finalized
      && FirstApprover(s.log, 1) == Some(ByFinance)
      && 0 in v.payments && v.payments[0].state == AWAITING_FINANCE
      && Finding(1, Some(0), CHAIN_PAID_DB_NOT, Stands(AWAITING_FINANCE), Stands(PAID)) in v.findings
  {
    hide Do, Run, Tracks, FirstApprover, Replayed, Unobserved;
    var tr := [CREATE, PROVE, BY_FINANCE, BY_MANAGER, PAY];
    PaidFinanceFirst();
    FromThese(tr);
    FromThese(tr[..3]);
    ProjectionRefines(HOST, OPENING, tr[..3], 1, v0);
    OnlyFinance(v0, Reached(tr[..3]));
    ProjectionRefines(HOST, OPENING, tr, 1, v0);
    FinanceFirstNeverPaid(v0, Reached(tr), 1, 0);
  }
}
