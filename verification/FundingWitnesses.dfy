/** Short concrete runs of the funding bridge that reach what the exact results speak of. */
module FundingWitnesses {
  import opened Prelude
  import Escrow
  import ContractRuns
  import FundedRuns
  import opened StateMachine
  import opened Eligibility
  import opened BatchPayments
  import opened Intents
  import opened DoubleFunding
  import opened Signing

  const FUNDER := Funder(Address("wallet"), OWNER, Some(Address("finance")), Some([]), Asset("USDC", Some(Address("token"))))

  /** One payment of one hour, whose period ends `length` milliseconds after the epoch. */
  function Payment(length: int, state: PaymentState): FundingPayment {
    FundingPayment("p", Address("worker"), "USDC", 100, 100, 1, Some(0), Some(length), state, false, None)
  }

  lemma PaymentIsClear(length: int, state: PaymentState)
    requires length > 0 && state in FUNDABLE_STATES
    ensures Fundable(Asked([Payment(length, state)], None, FUNDER)) && ClearFor([Payment(length, state)], FUNDER)
  {
    var r := Asked([Payment(length, state)], None, FUNDER);
    assert FundableRow(r, r.payments[0]);
    EligibleExactly(r);
    hide Blockers;
  }

  // ----- a half-second period, on a chain that is ready -----

  const READY := Escrow.Host(Address("contract"), [], _ => [], (_, _, _) => true, None)

  /** An eligible, storable request on a ready chain, whose half-second period the contract rejects. */
  lemma HalfSecondIsReached()
    ensures
      var r := Asked([Payment(500, DRAFT)], None, FUNDER);
      var inv := Escrow.Invocation({FUNDER.wallet}, {});
      var s := Escrow.Genesis(map[(Address("token"), FUNDER.wallet) := 100]);
      && Blockers(r) == [] && Storable(r) && Fundable(r) && ReadyChain(READY, inv, s, r)
      && !Escrow.Initialize(READY, inv, s, r.wallet, r.financeApprover.value, r.oracleKey.value, Submitted(r)).Ok?
  {
    var r := Asked([Payment(500, DRAFT)], None, FUNDER);
    var inv := Escrow.Invocation({FUNDER.wallet}, {});
    var s := Escrow.Genesis(map[(Address("token"), FUNDER.wallet) := 100]);
    PaymentIsClear(500, DRAFT);
    hide Blockers, Escrow.Initialize, Fundable;
    assert r.payments[..0] == [] && Sum(r.payments) == 100;
    HalfSecondPeriodIsRejected(READY, inv, s, r);
  }

  /** And one whose whole-second period survives: its plan is executed. */
  lemma PlanIsExecuted()
    ensures
      var r := Asked([Payment(1000, DRAFT)], None, FUNDER);
      var s := Escrow.Genesis(map[(Address("token"), FUNDER.wallet) := 100]);
      Fundable(r) && Storable(r)
      && FundedRuns.ExecutesPlan(READY, s, ContractRuns.Step(Escrow.Invocation({FUNDER.wallet}, {}),
           ContractRuns.InitializeCall(r.wallet, r.financeApprover.value, r.oracleKey.value, Submitted(r))), r)
  {
    var r := Asked([Payment(1000, DRAFT)], None, FUNDER);
    PaymentIsClear(1000, DRAFT);
    hide Blockers, Fundable;
    assert r.payments[..0] == [] && Sum(r.payments) == 100;
    WholeSecondsSurvive(r);
  }

  // ----- runs of the protocol -----

  const BATCH := "b"

  function Papers(state: PaymentState, slot: Option<nat>): seq<BatchPayment> {
    [BatchPayment(BATCH, Payment(1000, state).(onEscrow := slot.Some?, slot := slot))]
  }

  lemma PapersAre(state: PaymentState, slot: Option<nat>)
    ensures PaymentsOf(Papers(state, slot), BATCH) == [Payment(1000, state).(onEscrow := slot.Some?, slot := slot)]
    ensures Restate(Papers(DRAFT, slot), BATCH, DRAFT, VALIDATING) == Papers(VALIDATING, slot)
    ensures Restate(Papers(VALIDATING, slot), BATCH, DRAFT, VALIDATING) == Papers(VALIDATING, slot)
    ensures Link(Papers(state, slot), BATCH) == Papers(state, Some(0))
  {
    var ps := Papers(state, slot);
    assert ps[..0] == [];
    assert PaymentsOf(ps[..0], BATCH) == [] && Link(ps[..0], BATCH) == [];
  }

  /** Every transaction settles. */
  const ALWAYS: Ledger := _ => true

  /** Step by step along a list of events. */
  lemma StepTo(w: World, events: seq<Event>, k: nat)
    requires k < |events|
    ensures After(w, events[..k + 1]) == Happens(After(w, events[..k]), events[k])
  {
    hide Happens;
    assert events[..k + 1][..k] == events[..k];
  }

  lemma TwoSteps(w: World, events: seq<Event>, k: nat)
    requires k + 1 < |events|
    ensures After(w, events[..k + 2]) == Happens(Happens(After(w, events[..k]), events[k]), events[k + 1])
  {
    hide Happens, After;
    StepTo(w, events, k);
    StepTo(w, events, k + 1);
  }

  lemma ThreeSteps(w: World, events: seq<Event>, k: nat)
    requires k + 2 < |events|
    ensures After(w, events[..k + 3]) == Happens(Happens(Happens(After(w, events[..k]), events[k]), events[k + 1]), events[k + 2])
  {
    hide Happens, After;
    TwoSteps(w, events, k);
    StepTo(w, events, k + 2);
  }

  /** Where everything settles, a run is truthful if what it reads as settled had been sent. */
  lemma {:induction false} AllTruthful(w: World, events: seq<Event>)
    requires forall k :: 0 <= k < |events| ==> !events[k].CorrectRead?
    requires forall k :: 0 <= k < |events| && events[k].ConfirmRead? ==> TruthfulEvent(ALWAYS, After(w, events[..k]), events[k])
    ensures Truthful(ALWAYS, w, events)
  {
    hide Happens, TruthfulEvent;
    if events != [] {
      var front := events[..|events| - 1];
      forall k | 0 <= k < |front| && front[k].ConfirmRead? ensures TruthfulEvent(ALWAYS, After(w, front[..k]), front[k]) {
        assert front[..k] == events[..k];
      }
      AllTruthful(w, front);
      NotReading(After(w, front), events[|events| - 1]);
    }
  }

  lemma NotReading(w: World, e: Event)
    ensures !e.ConfirmRead? && !e.CorrectRead? ==> TruthfulEvent(ALWAYS, w, e)
  {
  }

  function Entry(number: nat, status: TxStatus, hash: Option<string>, escrow: Option<nat>): Attempt {
    Attempt(BATCH, number, FundingKey(BATCH, number), status, hash, escrow)
  }

  /** Opening the batch from where no attempt, or one finished attempt, stands. */
  lemma Opens(w: World, t: nat, state: PaymentState)
    requires w.payments == Papers(state, None) && state in FUNDABLE_STATES && t !in w.openers
    requires w.rows == [] || (exists status, hash: Option<string> :: status in {FAILED, TX_CANCELLED} && w.rows == [Entry(1, status, hash, None)])
    ensures
      Happens(Happens(Happens(w, OpenLook(t, BATCH)), OpenRead(t, FUNDER)), OpenCommit(t))
      == w.(rows := w.rows + [Entry(|w.rows| + 1, AWAITING_SIGNATURE, None, None)], payments := Papers(VALIDATING, None))
  {
    hide Blockers, Restate, PaymentsOf, FundingKey;
    PapersAre(state, None);
    PaymentIsClear(1000, state);
    LatestOfOne(w.rows);
    AttemptBlocks([Payment(1000, state)], LatestStatus(w.rows, BATCH), FUNDER);
    var number := |w.rows| + 1;
    var w1 := Happens(w, OpenLook(t, BATCH));
    var w2 := Happens(w1, OpenRead(t, FUNDER));
    assert w2.openers[t] == Decided(BATCH, number);
    SecondKeyIsFree();
    assert !KeyTaken(w.rows, FundingKey(BATCH, number));
    var w3 := Happens(w2, OpenCommit(t));
    assert w3.openers == w.openers;
  }

  lemma LatestOfOne(rows: seq<Attempt>)
    requires rows == [] || (|rows| == 1 && rows[0].batch == BATCH)
    ensures Latest(rows, BATCH) == if rows == [] then None else Some(0)
  {
    if rows != [] {
      assert rows[..0] == [];
    }
  }

  lemma SecondKeyIsFree()
    ensures FundingKey(BATCH, 2) != FundingKey(BATCH, 1)
  {
  }

  function Idle(rows: seq<Attempt>, payments: seq<BatchPayment>, signed: set<Signature>): World {
    World(rows, payments, map[], map[], signed)
  }

  const FIRST := Signature(0, "h1")
  const SECOND := Signature(1, "h2")

  /** The wallet signs and sends, then the browser reports. */
  lemma SignsAndSubmits(w: World, number: nat, txHash: string)
    requires |w.rows| > 0 && w.rows[|w.rows| - 1] == Entry(number, AWAITING_SIGNATURE, None, None) && !HashTaken(w.rows, txHash)
    ensures
      var i := |w.rows| - 1;
      Happens(Happens(w, Sign(i, txHash)), Submit(i, txHash))
      == w.(rows := w.rows[i := Entry(number, SUBMITTED, Some(txHash), None)], signed := w.signed + {Signature(i, txHash)})
  {
    hide FundingKey;
  }

  /** From the first opening on, whatever follows. */
  lemma OpensFirst(events: seq<Event>)
    requires |events| >= 3 && events[..3] == [OpenLook(0, BATCH), OpenRead(0, FUNDER), OpenCommit(0)]
    ensures
      After(Start(Papers(DRAFT, None)), events[..3]) == Idle([Entry(1, AWAITING_SIGNATURE, None, None)], Papers(VALIDATING, None), {})
  {
    hide Happens, FundingKey, Papers;
    var w0 := Start(Papers(DRAFT, None));
    assert events[0] == events[..3][0] && events[1] == events[..3][1] && events[2] == events[..3][2];
    assert events[..0] == [] && After(w0, events[..0]) == w0;
    ThreeSteps(w0, events, 0);
    Opens(w0, 0, DRAFT);
    var w3 := Idle([Entry(1, AWAITING_SIGNATURE, None, None)], Papers(VALIDATING, None), {});
    assert w0.(rows := w0.rows + w3.rows, payments := w3.payments) == w3;
  }

  /** Opening again after one finished attempt. */
  lemma OpensAgain(status: TxStatus, hash: Option<string>, state: PaymentState, signed: set<Signature>)
    requires status in {FAILED, TX_CANCELLED} && state in FUNDABLE_STATES
    ensures
      Happens(Happens(Happens(Idle([Entry(1, status, hash, None)], Papers(state, None), signed), OpenLook(0, BATCH)), OpenRead(0, FUNDER)), OpenCommit(0))
      == Idle([Entry(1, status, hash, None), Entry(2, AWAITING_SIGNATURE, None, None)], Papers(VALIDATING, None), signed)
  {
    hide Happens, FundingKey, Papers;
    var w := Idle([Entry(1, status, hash, None)], Papers(state, None), signed);
    Opens(w, 0, state);
    assert w.rows + [Entry(2, AWAITING_SIGNATURE, None, None)] == [Entry(1, status, hash, None), Entry(2, AWAITING_SIGNATURE, None, None)];
  }

  /** Abandoning: the payments are editable again only where no transaction is recorded. */
  lemma Abandons(status: TxStatus, hash: Option<string>, declined: bool, signed: set<Signature>)
    requires status != CONFIRMED
    ensures
      var w := Idle([Entry(1, status, hash, None)], Papers(VALIDATING, None), signed);
      Happens(Happens(w, FailRead(0, 0, declined)), FinishCommit(0))
      == Idle([Entry(1, if declined then TX_CANCELLED else FAILED, hash, None)], Papers(if hash == None then DRAFT else VALIDATING, None), signed)
  {
    hide FundingKey;
    var w := Idle([Entry(1, status, hash, None)], Papers(VALIDATING, None), signed);
    var mid := Happens(w, FailRead(0, 0, declined));
    assert mid.finishers == map[0 := Finisher(0, Abandon(declined, hash == None))];
    assert Happens(mid, FinishCommit(0)).finishers == map[];
  }

  // ----- two confirmed attempts -----

  /** Opened, signed and submitted, abandoned although submitted; opened, signed and submitted again; then both confirmed. */
  const TWICE: seq<Event> := [
    OpenLook(0, BATCH), OpenRead(0, FUNDER), OpenCommit(0), Sign(0, "h1"), Submit(0, "h1"), FailRead(0, 0, false), FinishCommit(0),
    OpenLook(0, BATCH), OpenRead(0, FUNDER), OpenCommit(0), Sign(1, "h2"), Submit(1, "h2"),
    ConfirmRead(0, 0, Settled(1)), FinishCommit(0), ConfirmRead(0, 1, Settled(2)), FinishCommit(0)]

  /** Confirming an attempt: it is CONFIRMED and the batch's payments are linked. */
  lemma ConfirmsOne(w: World, t: nat, i: nat, id: nat, slot: Option<nat>)
    requires w.payments == Papers(VALIDATING, slot) && i < |w.rows| && t !in w.finishers
    requires w.rows[i].batch == BATCH && w.rows[i].hash.Some? && w.rows[i].status != CONFIRMED
    ensures
      Happens(Happens(w, ConfirmRead(t, i, Settled(id))), FinishCommit(t))
      == w.(rows := w.rows[i := w.rows[i].(status := CONFIRMED, escrow := Some(id))], payments := Papers(VALIDATING, Some(0)))
  {
    hide Link, FundingKey;
    PapersAre(VALIDATING, slot);
    var mid := Happens(w, ConfirmRead(t, i, Settled(id)));
    assert Happens(mid, FinishCommit(t)).finishers == w.finishers;
  }

  /**
   * Two attempts of one batch both confirmed, every reader truthful: the first was abandoned after it had been submitted.
   */
  lemma TwiceConfirmed()
    ensures Truthful(ALWAYS, Start(Papers(DRAFT, None)), TWICE)
    ensures TwoConfirmed(After(Start(Papers(DRAFT, None)), TWICE).rows, BATCH)
  {
    hide Happens, FundingKey, Papers, After;
    var w0 := Start(Papers(DRAFT, None));
    OpensFirst(TWICE);
    var w3 := Idle([Entry(1, AWAITING_SIGNATURE, None, None)], Papers(VALIDATING, None), {});
    TwoSteps(w0, TWICE, 3);
    SignsAndSubmits(w3, 1, "h1");
    var w5 := Idle([Entry(1, SUBMITTED, Some("h1"), None)], Papers(VALIDATING, None), {FIRST});
    assert w3.(rows := w3.rows[0 := w5.rows[0]], signed := {} + {FIRST}) == w5;
    TwoSteps(w0, TWICE, 5);
    Abandons(SUBMITTED, Some("h1"), false, {FIRST});
    ThreeSteps(w0, TWICE, 7);
    OpensAgain(FAILED, Some("h1"), VALIDATING, {FIRST});
    ThenAgain(w0);
  }

  lemma ThenAgain(w0: World)
    requires
      After(w0, TWICE[..10])
      == Idle([Entry(1, FAILED, Some("h1"), None), Entry(2, AWAITING_SIGNATURE, None, None)], Papers(VALIDATING, None), {FIRST})
    ensures Truthful(ALWAYS, w0, TWICE) && TwoConfirmed(After(w0, TWICE).rows, BATCH)
  {
    hide Happens, After, FundingKey, Papers;
    var w10 := Idle([Entry(1, FAILED, Some("h1"), None), Entry(2, AWAITING_SIGNATURE, None, None)], Papers(VALIDATING, None), {FIRST});
    TwoSteps(w0, TWICE, 10);
    SignsAndSubmits(w10, 2, "h2");
    var w12 := Idle([Entry(1, FAILED, Some("h1"), None), Entry(2, SUBMITTED, Some("h2"), None)], Papers(VALIDATING, None), {FIRST, SECOND});
    assert w10.(rows := w10.rows[1 := w12.rows[1]], signed := {FIRST} + {SECOND}) == w12;
    TwoSteps(w0, TWICE, 12);
    ConfirmsOne(w12, 0, 0, 1, None);
    var w14 := Idle([Entry(1, CONFIRMED, Some("h1"), Some(1)), Entry(2, SUBMITTED, Some("h2"), None)], Papers(VALIDATING, Some(0)), {FIRST, SECOND});
    assert w12.(rows := w12.rows[0 := w14.rows[0]], payments := w14.payments) == w14;
    TwoSteps(w0, TWICE, 14);
    ConfirmsOne(w14, 0, 1, 2, Some(0));
    assert TWICE[..16] == TWICE;
    var rows := After(w0, TWICE).rows;
    assert rows[0].batch == rows[1].batch == BATCH && rows[0].status == rows[1].status == CONFIRMED;
    assert TruthfulEvent(ALWAYS, w12, TWICE[12]) && TruthfulEvent(ALWAYS, w14, TWICE[14]);
    AllTruthful(w0, TWICE);
  }

  // ----- a confirmed attempt overwritten, and a stale opener let in -----

  /**
   * Opened, signed and submitted; a second opener looks; an abandonment is decided; the attempt is confirmed and its
   * payments linked; the abandonment is written; the second opener goes on.
   */
  const OVERWRITTEN: seq<Event> := [
    OpenLook(0, BATCH), OpenRead(0, FUNDER), OpenCommit(0), Sign(0, "h1"), Submit(0, "h1"),
    OpenLook(5, BATCH), FailRead(1, 0, false), ConfirmRead(2, 0, Settled(1)), FinishCommit(2), FinishCommit(1),
    OpenRead(5, FUNDER), OpenCommit(5)]

  const LOOKED := Looked(BATCH, [Payment(1000, VALIDATING)])

  /** A CONFIRMED attempt that a decision already taken will overwrite, and does. */
  lemma OverwritableIsReached()
    ensures
      var w0 := Start(Papers(DRAFT, None));
      var before, after := After(w0, OVERWRITTEN[..9]), After(w0, OVERWRITTEN[..10]);
      && Truthful(ALWAYS, w0, OVERWRITTEN)
      && |before.rows| == 1 && before.rows[0].status == CONFIRMED && Sound(before) && Overwritable(before, 0)
      && |after.rows| == 1 && after.rows[0].status == FAILED && SomeLinked(PaymentsOf(after.payments, BATCH))
  {
    hide Happens, After, FundingKey, Papers, Sound, Truthful, PaymentsOf, SomeLinked;
    var w0 := Start(Papers(DRAFT, None));
    EveryInterleaving(Papers(DRAFT, None), OVERWRITTEN[..9]);
    OverwrittenStepByStep();
    LinkedPapers();
    var before := After(w0, OVERWRITTEN[..9]);
    assert before.finishers[1].row == 0 && Resulting(before.finishers[1].decision) != CONFIRMED;
  }

  lemma LinkedPapers()
    ensures SomeLinked(PaymentsOf(Papers(VALIDATING, Some(0)), BATCH))
  {
    PapersAre(VALIDATING, Some(0));
    hide PaymentsOf;
    assert PaymentsOf(Papers(VALIDATING, Some(0)), BATCH)[0].slot.Some?;
  }

  /** After that, although every payment of the batch is linked, the opener that had looked before opens it again. */
  lemma StaleOpenerReopens()
    ensures
      var w := After(Start(Papers(DRAFT, None)), OVERWRITTEN);
      && |w.rows| == 2 && w.rows[1].batch == BATCH && w.rows[1].status == AWAITING_SIGNATURE
      && SomeLinked(PaymentsOf(w.payments, BATCH))
  {
    hide Happens, After, FundingKey, Papers, PaymentsOf, SomeLinked;
    OverwrittenStepByStep();
    LinkedPapers();
  }

  lemma OverwrittenStepByStep()
    ensures
      var w0 := Start(Papers(DRAFT, None));
      && Truthful(ALWAYS, w0, OVERWRITTEN)
      && After(w0, OVERWRITTEN[..9])
         == World([Entry(1, CONFIRMED, Some("h1"), Some(1))], Papers(VALIDATING, Some(0)), map[5 := LOOKED], map[1 := Finisher(0, Abandon(false, false))], {FIRST})
      && After(w0, OVERWRITTEN[..10])
         == World([Entry(1, FAILED, Some("h1"), Some(1))], Papers(VALIDATING, Some(0)), map[5 := LOOKED], map[], {FIRST})
      && After(w0, OVERWRITTEN)
         == Idle([Entry(1, FAILED, Some("h1"), Some(1)), Entry(2, AWAITING_SIGNATURE, None, None)], Papers(VALIDATING, Some(0)), {FIRST})
  {
    hide Happens, After, FundingKey, Papers;
    var w0 := Start(Papers(DRAFT, None));
    OpensFirst(OVERWRITTEN);
    TwoSteps(w0, OVERWRITTEN, 3);
    var w3 := Idle([Entry(1, AWAITING_SIGNATURE, None, None)], Papers(VALIDATING, None), {});
    SignsAndSubmits(w3, 1, "h1");
    assert w3.rows[0 := Entry(1, SUBMITTED, Some("h1"), None)] == [Entry(1, SUBMITTED, Some("h1"), None)] && w3.signed + {FIRST} == {FIRST};
    TwoSteps(w0, OVERWRITTEN, 5);
    LooksAndDecides();
    TwoSteps(w0, OVERWRITTEN, 7);
    var w7 := World([Entry(1, SUBMITTED, Some("h1"), None)], Papers(VALIDATING, None), map[5 := LOOKED], map[1 := Finisher(0, Abandon(false, false))], {FIRST});
    ConfirmsOne(w7, 2, 0, 1, None);
    StepTo(w0, OVERWRITTEN, 9);
    Overwrites();
    TwoSteps(w0, OVERWRITTEN, 10);
    LetIn();
    assert OVERWRITTEN[..12] == OVERWRITTEN;
    assert TruthfulEvent(ALWAYS, w7, OVERWRITTEN[7]);
    AllTruthful(w0, OVERWRITTEN);
  }

  lemma LooksAndDecides()
    ensures
      var w := Idle([Entry(1, SUBMITTED, Some("h1"), None)], Papers(VALIDATING, None), {FIRST});
      Happens(Happens(w, OpenLook(5, BATCH)), FailRead(1, 0, false))
      == World(w.rows, w.payments, map[5 := LOOKED], map[1 := Finisher(0, Abandon(false, false))], {FIRST})
  {
    hide FundingKey, PaymentsOf, Restate, Link;
    PapersAre(VALIDATING, None);
  }

  lemma Overwrites()
    ensures
      Happens(World([Entry(1, CONFIRMED, Some("h1"), Some(1))], Papers(VALIDATING, Some(0)), map[5 := LOOKED],
                    map[1 := Finisher(0, Abandon(false, false))], {FIRST}), FinishCommit(1))
      == World([Entry(1, FAILED, Some("h1"), Some(1))], Papers(VALIDATING, Some(0)), map[5 := LOOKED], map[], {FIRST})
  {
    hide FundingKey;
    assert map[1 := Finisher(0, Abandon(false, false))] - {1} == map[];
  }

  lemma LetIn()
    ensures
      var w := World([Entry(1, FAILED, Some("h1"), Some(1))], Papers(VALIDATING, Some(0)), map[5 := LOOKED], map[], {FIRST});
      Happens(Happens(w, OpenRead(5, FUNDER)), OpenCommit(5))
      == Idle([Entry(1, FAILED, Some("h1"), Some(1)), Entry(2, AWAITING_SIGNATURE, None, None)], Papers(VALIDATING, Some(0)), {FIRST})
  {
    hide Blockers, Restate, PaymentsOf, FundingKey;
    var w := World([Entry(1, FAILED, Some("h1"), Some(1))], Papers(VALIDATING, Some(0)), map[5 := LOOKED], map[], {FIRST});
    PapersAre(DRAFT, Some(0));
    PapersAre(VALIDATING, Some(0));
    PaymentIsClear(1000, VALIDATING);
    LatestOfOne(w.rows);
    AttemptBlocks(LOOKED.payments, LatestStatus(w.rows, BATCH), FUNDER);
    SecondKeyIsFree();
    var mid := Happens(w, OpenRead(5, FUNDER));
    assert mid.openers == map[5 := Decided(BATCH, 2)];
    assert map[5 := Decided(BATCH, 2)] - {5} == map[];
  }

  // ----- the money moves twice -----

  /** Every report is of a transaction that was signed for its attempt. */
  ghost predicate ReportsSigned(w: World, events: seq<Event>) {
    forall k :: 0 <= k < |events| && events[k].Submit? ==> Signature(events[k].row, events[k].txHash) in After(w, events[..k]).signed
  }

  /** Every step before this one keeps to one transaction per attempt, and this one does not. */
  ghost predicate FirstBreach(w: World, events: seq<Event>, k: nat)
    requires k < |events|
  {
    Sole(w, events[..k]) && !SoleEvent(After(w, events[..k]), events[k])
  }

  lemma {:induction false} SoleUpTo(w: World, events: seq<Event>, n: nat)
    requires n <= |events|
    requires forall k :: 0 <= k < n && (events[k].Sign? || events[k].Submit? || events[k].FinishCommit?) ==> SoleEvent(After(w, events[..k]), events[k])
    ensures Sole(w, events[..n])
  {
    hide Happens, SoleEvent;
    if n > 0 {
      SoleUpTo(w, events, n - 1);
      OthersAreSole(After(w, events[..n - 1]), events[n - 1]);
      assert events[..n][..n - 1] == events[..n - 1];
    }
  }

  /** Steps that are neither a signing, a report nor a write always keep to it. */
  lemma OthersAreSole(w: World, e: Event)
    ensures !e.Sign? && !e.Submit? && !e.FinishCommit? ==> SoleEvent(w, e)
  {
  }

  /** A run that confirms nothing and abandons only where no hash is recorded keeps the records' guard. */
  lemma {:induction false} UnrecordedIsGuarded(w: World, events: seq<Event>)
    requires forall k :: 0 <= k < |events| && events[k].FinishCommit? ==> !Stray(ALWAYS, After(w, events[..k]), events[k])
    ensures Guarded(ALWAYS, w, events)
  {
    hide Happens, Stray;
    if events != [] {
      var front := events[..|events| - 1];
      forall k | 0 <= k < |front| && front[k].FinishCommit? ensures !Stray(ALWAYS, After(w, front[..k]), front[k]) {
        assert front[..k] == events[..k];
      }
      UnrecordedIsGuarded(w, front);
      OnlyFinishesStray(After(w, front), events[|events| - 1]);
    }
  }

  lemma OnlyFinishesStray(w: World, e: Event)
    ensures !e.FinishCommit? ==> !Stray(ALWAYS, w, e)
  {
  }

  lemma BothMove(w: World)
    requires {FIRST, SECOND} <= w.signed && |w.rows| == 2 && w.rows[0].batch == w.rows[1].batch == BATCH
    ensures PaysTwice(ALWAYS, w, BATCH)
  {
    assert Moves(ALWAYS, w, FIRST, BATCH) && Moves(ALWAYS, w, SECOND, BATCH);
  }

  /**
   * A second tab: it asks to open, is shown the attempt in flight, and both tabs sign and report. Nothing is abandoned, and
   * the second report is dropped.
   */
  const SECOND_TAB: seq<Event> := [
    OpenLook(0, BATCH), OpenRead(0, FUNDER), OpenCommit(0), OpenLook(1, BATCH), OpenRead(1, FUNDER),
    Sign(0, "h1"), Sign(0, "h2"), Submit(0, "h1"), Submit(0, "h2")]

  lemma TurnedAway(w: World)
    requires w == Idle([Entry(1, AWAITING_SIGNATURE, None, None)], Papers(VALIDATING, None), {})
    ensures Happens(Happens(w, OpenLook(1, BATCH)), OpenRead(1, FUNDER)) == w
  {
    hide Blockers, PaymentsOf, Restate, Link, FundingKey;
    PapersAre(VALIDATING, None);
    LatestOfOne(w.rows);
    AttemptBlocks([Payment(1000, VALIDATING)], LatestStatus(w.rows, BATCH), FUNDER);
    var mid := Happens(w, OpenLook(1, BATCH));
    assert mid.openers == map[1 := Looked(BATCH, [Payment(1000, VALIDATING)])];
    assert Happens(mid, OpenRead(1, FUNDER)).openers == map[];
  }

  /** A run with one attempt, never abandoned, whose records are in order, and two settled transactions. */
  lemma SecondTabPaysTwice()
    ensures
      var w0 := Start(Papers(DRAFT, None));
      var w := After(w0, SECOND_TAB);
      && Truthful(ALWAYS, w0, SECOND_TAB) && Guarded(ALWAYS, w0, SECOND_TAB) && ReportsSigned(w0, SECOND_TAB)
      && FirstBreach(w0, SECOND_TAB, 6) && w.rows == [Entry(1, SUBMITTED, Some("h1"), None)]
      && PaysTwice(ALWAYS, w, BATCH)
  {
    hide Happens, After, FundingKey, Papers, SoleEvent;
    var w0 := Start(Papers(DRAFT, None));
    OpensFirst(SECOND_TAB);
    var w3 := Idle([Entry(1, AWAITING_SIGNATURE, None, None)], Papers(VALIDATING, None), {});
    TwoSteps(w0, SECOND_TAB, 3);
    TurnedAway(w3);
    StepTo(w0, SECOND_TAB, 5);
    StepTo(w0, SECOND_TAB, 6);
    TwoSteps(w0, SECOND_TAB, 7);
    StepTo(w0, SECOND_TAB, 7);
    TwoTabsSign(w3);
    assert SECOND_TAB[..9] == SECOND_TAB;
    AllTruthful(w0, SECOND_TAB);
    UnrecordedIsGuarded(w0, SECOND_TAB);
    SoleUpTo(w0, SECOND_TAB, 6);
  }

  /** The four steps of the two tabs. */
  lemma TwoTabsSign(w: World)
    requires w == Idle([Entry(1, AWAITING_SIGNATURE, None, None)], Papers(VALIDATING, None), {})
    ensures
      var w1 := Happens(w, Sign(0, "h1"));
      var w2 := Happens(w1, Sign(0, "h2"));
      var w3 := Happens(w2, Submit(0, "h1"));
      var w4 := Happens(w3, Submit(0, "h2"));
      && FIRST in w2.signed && Signature(0, "h2") in w3.signed
      && w4.rows == [Entry(1, SUBMITTED, Some("h1"), None)] && PaysTwice(ALWAYS, w4, BATCH)
      && SoleEvent(w, Sign(0, "h1")) && !SoleEvent(w1, Sign(0, "h2"))
  {
    hide FundingKey, Papers;
    var w4 := Happens(Happens(Happens(Happens(w, Sign(0, "h1")), Sign(0, "h2")), Submit(0, "h1")), Submit(0, "h2"));
    assert Moves(ALWAYS, w4, FIRST, BATCH) && Moves(ALWAYS, w4, Signature(0, "h2"), BATCH);
    assert FIRST in Happens(w, Sign(0, "h1")).signed && FIRST.row == 0;
  }

  /**
   * Signed and sent; before the browser reports the hash the attempt is abandoned, its payments are editable again, and a
   * second attempt is opened, signed and reported.
   */
  const IN_THE_WINDOW: seq<Event> := [
    OpenLook(0, BATCH), OpenRead(0, FUNDER), OpenCommit(0), Sign(0, "h1"), FailRead(0, 0, true), FinishCommit(0), Submit(0, "h1"),
    OpenLook(0, BATCH), OpenRead(0, FUNDER), OpenCommit(0), Sign(1, "h2"), Submit(1, "h2")]

  lemma SignsOnly(w: World, hash: string)
    requires w == Idle([Entry(1, AWAITING_SIGNATURE, None, None)], Papers(VALIDATING, None), {})
    ensures Happens(w, Sign(0, hash)) == w.(signed := {Signature(0, hash)}) && SoleEvent(w, Sign(0, hash))
  {
  }

  /** A report for an attempt that is over is dropped. */
  lemma TooLate(w: World, hash: string)
    requires |w.rows| > 0 && w.rows[0].status == TX_CANCELLED
    ensures Happens(w, Submit(0, hash)) == w && SoleEvent(w, Submit(0, hash))
  {
  }

  lemma FreshSign(w: World, hash: string)
    requires |w.rows| == 2 && w.rows[1].status == AWAITING_SIGNATURE && w.rows[1].hash == None && forall s :: s in w.signed ==> s.row == 0
    ensures SoleEvent(w, Sign(1, hash)) && SoleEvent(Happens(w, Sign(1, hash)), Submit(1, hash))
  {
  }

  /** A run in which every abandonment falls on an absent hash, each attempt is signed once, and the money moves twice. */
  lemma AbandonedInTheWindowPaysTwice()
    ensures
      var w0 := Start(Papers(DRAFT, None));
      && Truthful(ALWAYS, w0, IN_THE_WINDOW) && Guarded(ALWAYS, w0, IN_THE_WINDOW) && ReportsSigned(w0, IN_THE_WINDOW)
      && FirstBreach(w0, IN_THE_WINDOW, 5)
      && |After(w0, IN_THE_WINDOW[..5]).rows| == 1 && After(w0, IN_THE_WINDOW[..5]).rows[0].hash == None
      && PaysTwice(ALWAYS, After(w0, IN_THE_WINDOW), BATCH)
  {
    hide Happens, After, FundingKey, Papers, SoleEvent, Stray, FirstBreach, PaysTwice;
    var w0 := Start(Papers(DRAFT, None));
    IntoTheWindow();
    OutOfTheWindow();
    assert IN_THE_WINDOW[..12] == IN_THE_WINDOW;
    BothMove(After(w0, IN_THE_WINDOW));
    AllTruthful(w0, IN_THE_WINDOW);
    UnrecordedIsGuarded(w0, IN_THE_WINDOW);
  }

  /** The second attempt. */
  lemma OutOfTheWindow()
    ensures
      var w0 := Start(Papers(DRAFT, None));
      var w := After(w0, IN_THE_WINDOW[..12]);
      && SECOND in After(w0, IN_THE_WINDOW[..11]).signed && {FIRST, SECOND} <= w.signed
      && |w.rows| == 2 && w.rows[0].batch == w.rows[1].batch == BATCH
  {
    hide Happens, After, FundingKey, Papers, SoleEvent, Stray, FirstBreach;
    var w0 := Start(Papers(DRAFT, None));
    IntoTheWindow();
    ThreeSteps(w0, IN_THE_WINDOW, 7);
    OpensAgain(TX_CANCELLED, None, DRAFT, {FIRST});
    var w10 := Idle([Entry(1, TX_CANCELLED, None, None), Entry(2, AWAITING_SIGNATURE, None, None)], Papers(VALIDATING, None), {FIRST});
    StepTo(w0, IN_THE_WINDOW, 10);
    TwoSteps(w0, IN_THE_WINDOW, 10);
    SignsAndSubmits(w10, 2, "h2");
    SignedNow(w10, SECOND);
  }

  /** As far as the late report. */
  lemma IntoTheWindow()
    ensures
      var w0 := Start(Papers(DRAFT, None));
      && FirstBreach(w0, IN_THE_WINDOW, 5) && !Stray(ALWAYS, After(w0, IN_THE_WINDOW[..5]), IN_THE_WINDOW[5])
      && |After(w0, IN_THE_WINDOW[..5]).rows| == 1 && After(w0, IN_THE_WINDOW[..5]).rows[0].hash == None
      && FIRST in After(w0, IN_THE_WINDOW[..6]).signed
      && After(w0, IN_THE_WINDOW[..7]) == Idle([Entry(1, TX_CANCELLED, None, None)], Papers(DRAFT, None), {FIRST})
  {
    hide Happens, After, FundingKey, Papers, SoleEvent, Stray;
    var w0 := Start(Papers(DRAFT, None));
    OpensFirst(IN_THE_WINDOW);
    var w3 := Idle([Entry(1, AWAITING_SIGNATURE, None, None)], Papers(VALIDATING, None), {});
    var w4 := Idle([Entry(1, AWAITING_SIGNATURE, None, None)], Papers(VALIDATING, None), {FIRST});
    StepTo(w0, IN_THE_WINDOW, 3);
    SignsOnly(w3, "h1");
    assert After(w0, IN_THE_WINDOW[..4]) == w4;
    TwoSteps(w0, IN_THE_WINDOW, 4);
    StepTo(w0, IN_THE_WINDOW, 4);
    Abandons(AWAITING_SIGNATURE, None, true, {FIRST});
    WindowBreach();
    StepTo(w0, IN_THE_WINDOW, 6);
    TooLate(Idle([Entry(1, TX_CANCELLED, None, None)], Papers(DRAFT, None), {FIRST}), "h1");
    SoleUpTo(w0, IN_THE_WINDOW, 5);
  }

  lemma SignedNow(w: World, s: Signature)
    requires s.row < |w.rows|
    ensures s in Happens(w, Sign(s.row, s.hash)).signed
  {
  }

  /** Abandoning after a signing breaks it, though no hash is recorded and the records' guard sees nothing. */
  lemma WindowBreach()
    ensures
      var w := Idle([Entry(1, AWAITING_SIGNATURE, None, None)], Papers(VALIDATING, None), {FIRST});
      var decided := Happens(w, FailRead(0, 0, true));
      && |decided.rows| == 1 && decided.rows[0].hash == None
      && !SoleEvent(decided, FinishCommit(0)) && !Stray(ALWAYS, decided, FinishCommit(0))
  {
    hide FundingKey, Papers;
    var w := Idle([Entry(1, AWAITING_SIGNATURE, None, None)], Papers(VALIDATING, None), {FIRST});
    assert FIRST in Happens(w, FailRead(0, 0, true)).signed && FIRST.row == 0;
  }

  /**
   * A tab left open: the attempt it was shown is abandoned in another with nothing signed, a second attempt is opened, signed
   * and reported, and then the first tab signs what it still shows.
   */
  const STALE_TAB: seq<Event> := [
    OpenLook(0, BATCH), OpenRead(0, FUNDER), OpenCommit(0), FailRead(0, 0, true), FinishCommit(0),
    OpenLook(0, BATCH), OpenRead(0, FUNDER), OpenCommit(0), Sign(1, "h2"), Submit(1, "h2"), Sign(0, "h1"), Submit(0, "h1")]

  /** A run in which each attempt is signed once, abandoned only before it is signed, and the money moves twice. */
  lemma StaleTabPaysTwice()
    ensures
      var w0 := Start(Papers(DRAFT, None));
      && Truthful(ALWAYS, w0, STALE_TAB) && Guarded(ALWAYS, w0, STALE_TAB) && ReportsSigned(w0, STALE_TAB)
      && FirstBreach(w0, STALE_TAB, 10) && PaysTwice(ALWAYS, After(w0, STALE_TAB), BATCH)
  {
    hide Happens, After, FundingKey, Papers, SoleEvent, Stray, PaysTwice;
    var w0 := Start(Papers(DRAFT, None));
    TabLeftOpen();
    TabComesBack();
    assert STALE_TAB[..12] == STALE_TAB;
    BothMove(After(w0, STALE_TAB));
    AllTruthful(w0, STALE_TAB);
    SoleUpTo(w0, STALE_TAB, 10);
    UnrecordedIsGuarded(w0, STALE_TAB);
  }

  /** Opened, shown, abandoned unsigned, opened again. */
  lemma TabLeftOpen()
    ensures
      var w0 := Start(Papers(DRAFT, None));
      && SoleEvent(After(w0, STALE_TAB[..4]), STALE_TAB[4]) && !Stray(ALWAYS, After(w0, STALE_TAB[..4]), STALE_TAB[4])
      && After(w0, STALE_TAB[..8])
         == Idle([Entry(1, TX_CANCELLED, None, None), Entry(2, AWAITING_SIGNATURE, None, None)], Papers(VALIDATING, None), {})
  {
    hide Happens, After, FundingKey, Papers, SoleEvent, Stray;
    var w0 := Start(Papers(DRAFT, None));
    OpensFirst(STALE_TAB);
    StepTo(w0, STALE_TAB, 3);
    TwoSteps(w0, STALE_TAB, 3);
    Abandons(AWAITING_SIGNATURE, None, true, {});
    NothingSignedBreach();
    ThreeSteps(w0, STALE_TAB, 5);
    OpensAgain(TX_CANCELLED, None, DRAFT, {});
  }

  /** The second attempt's transaction, then the first tab's. */
  lemma TabComesBack()
    ensures
      var w0 := Start(Papers(DRAFT, None));
      var w := After(w0, STALE_TAB[..12]);
      && SoleEvent(After(w0, STALE_TAB[..8]), STALE_TAB[8]) && SoleEvent(After(w0, STALE_TAB[..9]), STALE_TAB[9])
      && !SoleEvent(After(w0, STALE_TAB[..10]), STALE_TAB[10])
      && SECOND in After(w0, STALE_TAB[..9]).signed && FIRST in After(w0, STALE_TAB[..11]).signed
      && {FIRST, SECOND} <= w.signed && |w.rows| == 2 && w.rows[0].batch == w.rows[1].batch == BATCH
  {
    hide Happens, After, FundingKey, Papers, SoleEvent, Stray;
    var w0 := Start(Papers(DRAFT, None));
    TabLeftOpen();
    var w8 := Idle([Entry(1, TX_CANCELLED, None, None), Entry(2, AWAITING_SIGNATURE, None, None)], Papers(VALIDATING, None), {});
    FreshSign(w8, "h2");
    SignedNow(w8, SECOND);
    StepTo(w0, STALE_TAB, 8);
    TwoSteps(w0, STALE_TAB, 8);
    SignsAndSubmits(w8, 2, "h2");
    var w10 := Idle([Entry(1, TX_CANCELLED, None, None), Entry(2, SUBMITTED, Some("h2"), None)], Papers(VALIDATING, None), {SECOND});
    assert w8.(rows := w8.rows[1 := w10.rows[1]], signed := {} + {SECOND}) == w10;
    StaleSign(w10);
    StepTo(w0, STALE_TAB, 10);
    TwoSteps(w0, STALE_TAB, 10);
  }

  /** Abandoning an attempt nothing was signed for breaks nothing. */
  lemma NothingSignedBreach()
    ensures
      var decided := Happens(Idle([Entry(1, AWAITING_SIGNATURE, None, None)], Papers(VALIDATING, None), {}), FailRead(0, 0, true));
      SoleEvent(decided, FinishCommit(0)) && !Stray(ALWAYS, decided, FinishCommit(0))
  {
    hide FundingKey, Papers;
  }

  /** Signing for an attempt that is over, and the report of it. */
  lemma StaleSign(w: World)
    requires w == Idle([Entry(1, TX_CANCELLED, None, None), Entry(2, SUBMITTED, Some("h2"), None)], Papers(VALIDATING, None), {SECOND})
    ensures
      var signed := Happens(w, Sign(0, "h1"));
      && !SoleEvent(w, Sign(0, "h1")) && FIRST in signed.signed
      && Happens(signed, Submit(0, "h1")) == w.(signed := {FIRST, SECOND})
  {
    hide FundingKey, Papers;
  }
}
