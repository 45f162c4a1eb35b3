/** The payment state machine: who may move a payment from which state to which. */
module StateMachine {
  import opened Prelude

  datatype PaymentState =
    | DRAFT | VALIDATING | AWAITING_ORACLE | ORACLE_VERIFIED | AWAITING_MANAGER | AWAITING_FINANCE
    | READY_TO_SETTLE | SUBMITTING | CONFIRMING | PAID | REJECTED | CANCELLED | EXPIRED
    | SUBMISSION_FAILED | SETTLEMENT_FAILED | RECONCILIATION_REQUIRED

  datatype ActorKind = User | Indexer | Reconciler | System

  datatype OrgRole = OWNER | ADMIN | MANAGER | FINANCE | WORKER | VIEWER

  datatype Actor = Actor(kind: ActorKind, role: Option<OrgRole>)

  /** Who may perform a transition, and for a user, in which organization roles. */
  datatype Rule = Rule(actors: set<ActorKind>, roles: set<OrgRole>)

  const PREPARERS: set<OrgRole> := {OWNER, ADMIN, MANAGER}
  const PREPARERS_AND_FINANCE: set<OrgRole> := {OWNER, ADMIN, MANAGER, FINANCE}
  const OBSERVED := Rule({Indexer, Reconciler}, {})

  /** The transition table; a pair of states it does not name has no transition. */
  function FindTransition(from: PaymentState, to: PaymentState): Option<Rule> {
    match (from, to)
    // authoring
    case (DRAFT, VALIDATING) => Some(Rule({User}, PREPARERS))
    case (DRAFT, CANCELLED) => Some(Rule({User}, PREPARERS))
    case (VALIDATING, DRAFT) => Some(Rule({System}, {}))
    case (VALIDATING, AWAITING_ORACLE) => Some(OBSERVED)
    case (VALIDATING, REJECTED) => Some(Rule({User}, PREPARERS_AND_FINANCE))
    case (VALIDATING, CANCELLED) => Some(Rule({User}, PREPARERS))
    // oracle
    case (AWAITING_ORACLE, ORACLE_VERIFIED) => Some(OBSERVED)
    case (AWAITING_ORACLE, CANCELLED) => Some(OBSERVED)
    case (AWAITING_ORACLE, EXPIRED) => Some(Rule({System}, {}))
    case (ORACLE_VERIFIED, AWAITING_MANAGER) => Some(Rule({System, Indexer}, {}))
    case (ORACLE_VERIFIED, CANCELLED) => Some(OBSERVED)
    // dual approval
    case (AWAITING_MANAGER, AWAITING_FINANCE) => Some(OBSERVED)
    case (AWAITING_MANAGER, REJECTED) => Some(Rule({User}, PREPARERS))
    case (AWAITING_MANAGER, CANCELLED) => Some(OBSERVED)
    case (AWAITING_MANAGER, EXPIRED) => Some(Rule({System}, {}))
    case (AWAITING_FINANCE, READY_TO_SETTLE) => Some(OBSERVED)
    case (AWAITING_FINANCE, REJECTED) => Some(Rule({User}, {OWNER, ADMIN, FINANCE}))
    case (AWAITING_FINANCE, CANCELLED) => Some(OBSERVED)
    case (AWAITING_FINANCE, EXPIRED) => Some(Rule({System}, {}))
    // settlement
    case (READY_TO_SETTLE, SUBMITTING) => Some(Rule({User}, PREPARERS_AND_FINANCE))
    case (READY_TO_SETTLE, CANCELLED) => Some(OBSERVED)
    case (SUBMITTING, CONFIRMING) => Some(Rule({System}, {}))
    case (SUBMITTING, SUBMISSION_FAILED) => Some(Rule({System}, {}))
    case (CONFIRMING, PAID) => Some(OBSERVED)
    case (READY_TO_SETTLE, PAID) => Some(OBSERVED)
    case (SUBMITTING, PAID) => Some(OBSERVED)
    case (CONFIRMING, SETTLEMENT_FAILED) => Some(Rule({Indexer, System}, {}))
    case (CONFIRMING, RECONCILIATION_REQUIRED) => Some(Rule({Reconciler, System}, {}))
    // recovery
    case (SUBMISSION_FAILED, READY_TO_SETTLE) => Some(Rule({User}, PREPARERS_AND_FINANCE))
    case (SUBMISSION_FAILED, CANCELLED) => Some(Rule({User}, PREPARERS))
    case (SUBMISSION_FAILED, RECONCILIATION_REQUIRED) => Some(Rule({Reconciler}, {}))
    case (SETTLEMENT_FAILED, RECONCILIATION_REQUIRED) => Some(Rule({Reconciler, System}, {}))
    case (SETTLEMENT_FAILED, PAID) => Some(OBSERVED)
    case (SETTLEMENT_FAILED, READY_TO_SETTLE) => Some(Rule({Reconciler}, {}))
    // reconciliation outcomes
    case (RECONCILIATION_REQUIRED, PAID) => Some(OBSERVED)
    case (RECONCILIATION_REQUIRED, READY_TO_SETTLE) => Some(Rule({Reconciler}, {}))
    case (RECONCILIATION_REQUIRED, SETTLEMENT_FAILED) => Some(Rule({Reconciler}, {}))
    case (RECONCILIATION_REQUIRED, CANCELLED) => Some(Rule({User, Reconciler}, {OWNER, ADMIN}))
    case _ => None
  }

  const TERMINAL_STATES: set<PaymentState> := {PAID, REJECTED, CANCELLED, EXPIRED}

  datatype Check = Allowed | SameState | Terminal | InvalidTransition | ActorNotPermitted | RoleNotPermitted | RoleRequired

  function CheckTransition(from: PaymentState, to: PaymentState, actor: Actor): Check {
    if from == to then SameState
    else if from in TERMINAL_STATES then Terminal
    else match FindTransition(from, to)
      case None => InvalidTransition
      case Some(rule) =>
        if actor.kind !in rule.actors then ActorNotPermitted
        else if actor.kind != User then Allowed
        else if rule.roles == {} then RoleNotPermitted
        else if actor.role == None then RoleRequired
        else if actor.role.value !in rule.roles then RoleNotPermitted
        else Allowed
  }

  // ----- every writer of a payment's state -----

  /** State changes the indexer makes without consulting the table. */
  predicate IndexerWrites(from: PaymentState, to: PaymentState) {
    match (from, to)
    case (AWAITING_ORACLE, ORACLE_VERIFIED) => true
    case (ORACLE_VERIFIED, AWAITING_MANAGER) => true
    case (AWAITING_MANAGER, AWAITING_FINANCE) => true
    case (AWAITING_FINANCE, READY_TO_SETTLE) => true
    // a rotated oracle key revokes every proof of the escrow
    case (ORACLE_VERIFIED, AWAITING_ORACLE) => true
    case (AWAITING_MANAGER, AWAITING_ORACLE) => true
    case (AWAITING_FINANCE, AWAITING_ORACLE) => true
    case (READY_TO_SETTLE, AWAITING_ORACLE) => true
    case _ => false
  }

  /** State changes the funding bridge makes without consulting the table. */
  predicate FundingWrites(from: PaymentState, to: PaymentState) {
    (from == DRAFT && to == VALIDATING) || (from == VALIDATING && to == DRAFT)
  }

  /** One write of a payment's state by anyone. */
  predicate Writes(actor: Actor, from: PaymentState, to: PaymentState) {
    || CheckTransition(from, to, actor) == Allowed
    || (actor.kind == Indexer && IndexerWrites(from, to))
    || FundingWrites(from, to)
  }

  datatype Write = Write(actor: Actor, to: PaymentState)

  function StateAfter(start: PaymentState, writes: seq<Write>): PaymentState {
    if writes == [] then start else writes[|writes| - 1].to
  }

  /** A history every step of which some writer may make. */
  predicate Lawful(start: PaymentState, writes: seq<Write>) {
    writes == [] ||
    var front, last := writes[..|writes| - 1], writes[|writes| - 1];
    Lawful(start, front) && Writes(last.actor, StateAfter(start, front), last.to)
  }

  /** Where a payment's row begins: uploaded, in review, or first seen funded on-chain. */
  predicate Starts(s: PaymentState) {
    s == DRAFT || s == VALIDATING || s == AWAITING_ORACLE
  }

  // ----- terminal states and the way to PAID -----

  /** The write at any position of a lawful history was made from the state just before it. */
  lemma {:induction false} EveryStepIsLawful(start: PaymentState, writes: seq<Write>, i: nat)
    requires Lawful(start, writes) && i < |writes|
    ensures Writes(writes[i].actor, StateAfter(start, writes[..i]), writes[i].to)
  {
    var n := |writes| - 1;
    if i < n {
      EveryStepIsLawful(start, writes[..n], i);
      assert writes[..n][..i] == writes[..i];
    }
  }

  /** No writer moves a payment out of PAID, REJECTED, CANCELLED or EXPIRED: only the last state can be terminal. */
  lemma {:induction false} TerminalIsAbsorbing(start: PaymentState, writes: seq<Write>, i: nat)
    requires Lawful(start, writes) && i < |writes|
    ensures StateAfter(start, writes[..i]) !in TERMINAL_STATES
  {
    EveryStepIsLawful(start, writes, i);
  }

  /** Only the two actors that read the chain ever write PAID. */
  lemma {:induction false} PaidOnlyByObservers(start: PaymentState, writes: seq<Write>, i: nat)
    requires Lawful(start, writes) && i < |writes| && writes[i].to == PAID
    ensures writes[i].actor.kind == Indexer || writes[i].actor.kind == Reconciler
  {
    EveryStepIsLawful(start, writes, i);
  }

  const MILESTONES: seq<PaymentState> := [ORACLE_VERIFIED, AWAITING_MANAGER, AWAITING_FINANCE, READY_TO_SETTLE]

  /** How many milestones a payment in this state has behind it. */
  function Depth(s: PaymentState): nat {
    match s
    case ORACLE_VERIFIED => 1
    case AWAITING_MANAGER => 2
    case AWAITING_FINANCE => 3
    case READY_TO_SETTLE => 4
    case SUBMITTING => 4
    case CONFIRMING => 4
    case PAID => 4
    case SUBMISSION_FAILED => 4
    case SETTLEMENT_FAILED => 4
    case RECONCILIATION_REQUIRED => 4
    case _ => 0
  }

  /**
   * `at` are increasing positions in the history where the milestones were entered in order, with no return to
   * AWAITING_ORACLE after the first of them.
   */
  ghost predicate Passed(writes: seq<Write>, at: seq<nat>) {
    && |at| <= 4
    && (forall i :: 0 <= i < |at| ==> at[i] < |writes| && writes[at[i]].to == MILESTONES[i])
    && (forall i, j :: 0 <= i < j < |at| ==> at[i] < at[j])
    && (at != [] ==> forall m :: at[0] <= m < |writes| ==> writes[m].to != AWAITING_ORACLE)
  }

  /** One lawful write advances by at most the next milestone, or drops back. */
  lemma DepthStep(actor: Actor, from: PaymentState, to: PaymentState)
    requires Writes(actor, from, to)
    ensures Depth(to) <= Depth(from) || (Depth(to) == Depth(from) + 1 && to == MILESTONES[Depth(from)])
    ensures to == AWAITING_ORACLE ==> Depth(to) == 0
  {
  }

  lemma NothingPassed()
    ensures Passed([], [])
  {
  }

  /** One more write keeps the milestones already passed, cut back to the depth it leaves the payment at. */
  lemma PassedKeeps(front: seq<Write>, last: Write, before: seq<nat>, depth: nat)
    requires Passed(front, before) && depth <= |before|
    requires last.to == AWAITING_ORACLE ==> depth == 0
    ensures Passed(front + [last], before[..depth])
  {
  }

  /** A write that enters the next milestone extends them. */
  lemma PassedExtends(front: seq<Write>, last: Write, before: seq<nat>)
    requires Passed(front, before) && |before| < 4 && last.to == MILESTONES[|before|]
    ensures Passed(front + [last], before + [|front|])
  {
  }

  /** Every lawful history has passed as many milestones, in order, as its state is deep. */
  lemma {:induction false} MilestonesPassed(start: PaymentState, writes: seq<Write>) returns (at: seq<nat>)
    requires Starts(start) && Lawful(start, writes)
    ensures Passed(writes, at) && |at| == Depth(StateAfter(start, writes))
  {
    hide Writes, Passed;
    if writes == [] {
      at := [];
      NothingPassed();
    } else {
      var front, last := writes[..|writes| - 1], writes[|writes| - 1];
      var before := MilestonesPassed(start, front);
      DepthStep(last.actor, StateAfter(start, front), last.to);
      assert writes == front + [last];
      var depth := Depth(last.to);
      if depth <= |before| {
        PassedKeeps(front, last, before, depth);
        at := before[..depth];
      } else {
        PassedExtends(front, last, before);
        at := before + [|front|];
      }
    }
  }

  /**
   * Every history that ends PAID has been through ORACLE_VERIFIED, AWAITING_MANAGER, AWAITING_FINANCE and
   * READY_TO_SETTLE, in that order, since it last awaited the oracle.
   */
  lemma PaidPassedEveryGate(start: PaymentState, writes: seq<Write>) returns (verified: nat, manager: nat, finance: nat, ready: nat)
    requires Starts(start) && Lawful(start, writes) && StateAfter(start, writes) == PAID
    ensures verified < manager < finance < ready < |writes|
    ensures writes[verified].to == ORACLE_VERIFIED && writes[manager].to == AWAITING_MANAGER
    ensures writes[finance].to == AWAITING_FINANCE && writes[ready].to == READY_TO_SETTLE
    ensures forall m :: verified <= m < |writes| ==> writes[m].to != AWAITING_ORACLE
  {
    var at := MilestonesPassed(start, writes);
    verified, manager, finance, ready := at[0], at[1], at[2], at[3];
  }
}
