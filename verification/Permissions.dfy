/** The transition table read the other way: everything each actor, and each role, may do. */
module Permissions {
  import opened Prelude
  import opened StateMachine

  /** Preparing a batch, turning it down before the manager's approval, and giving up a failed submission. */
  predicate Preparing(from: PaymentState, to: PaymentState) {
    match from
    case DRAFT => to == VALIDATING || to == CANCELLED
    case VALIDATING => to == CANCELLED
    case AWAITING_MANAGER => to == REJECTED
    case SUBMISSION_FAILED => to == CANCELLED
    case _ => false
  }

  /** Reviewing and settling, which finance shares. */
  predicate SettlingMove(from: PaymentState, to: PaymentState) {
    match from
    case VALIDATING => to == REJECTED
    case READY_TO_SETTLE => to == SUBMITTING
    case SUBMISSION_FAILED => to == READY_TO_SETTLE
    case _ => false
  }

  predicate FinanceDecision(from: PaymentState, to: PaymentState) {
    from == AWAITING_FINANCE && to == REJECTED
  }

  predicate Closing(from: PaymentState, to: PaymentState) {
    from == RECONCILIATION_REQUIRED && to == CANCELLED
  }

  /** A manager never takes the finance decision, finance never the manager's, and workers and viewers move nothing. */
  predicate RoleMay(role: OrgRole, from: PaymentState, to: PaymentState) {
    match role
    case OWNER => Preparing(from, to) || SettlingMove(from, to) || FinanceDecision(from, to) || Closing(from, to)
    case ADMIN => Preparing(from, to) || SettlingMove(from, to) || FinanceDecision(from, to) || Closing(from, to)
    case MANAGER => Preparing(from, to) || SettlingMove(from, to)
    case FINANCE => SettlingMove(from, to) || FinanceDecision(from, to)
    case WORKER => false
    case VIEWER => false
  }

  /** What reading the chain entitles to: following it forward, and seeing a cancellation or a settlement. */
  predicate Observing(from: PaymentState, to: PaymentState) {
    match to
    case AWAITING_ORACLE => from == VALIDATING
    case ORACLE_VERIFIED => from == AWAITING_ORACLE
    case AWAITING_FINANCE => from == AWAITING_MANAGER
    case READY_TO_SETTLE => from == AWAITING_FINANCE
    case CANCELLED => from in {AWAITING_ORACLE, ORACLE_VERIFIED, AWAITING_MANAGER, AWAITING_FINANCE, READY_TO_SETTLE}
    case PAID => from in {READY_TO_SETTLE, SUBMITTING, CONFIRMING, SETTLEMENT_FAILED, RECONCILIATION_REQUIRED}
    case _ => false
  }

  predicate Reconciling(from: PaymentState, to: PaymentState) {
    match from
    case CONFIRMING => to == RECONCILIATION_REQUIRED
    case SUBMISSION_FAILED => to == RECONCILIATION_REQUIRED
    case SETTLEMENT_FAILED => to == RECONCILIATION_REQUIRED || to == READY_TO_SETTLE
    case RECONCILIATION_REQUIRED => to == READY_TO_SETTLE || to == SETTLEMENT_FAILED || to == CANCELLED
    case _ => false
  }

  predicate Housekeeping(from: PaymentState, to: PaymentState) {
    match from
    case VALIDATING => to == DRAFT
    case AWAITING_ORACLE => to == EXPIRED
    case ORACLE_VERIFIED => to == AWAITING_MANAGER
    case AWAITING_MANAGER => to == EXPIRED
    case AWAITING_FINANCE => to == EXPIRED
    case SUBMITTING => to == CONFIRMING || to == SUBMISSION_FAILED
    case CONFIRMING => to == SETTLEMENT_FAILED || to == RECONCILIATION_REQUIRED
    case SETTLEMENT_FAILED => to == RECONCILIATION_REQUIRED
    case _ => false
  }

  predicate MachineMay(kind: ActorKind, from: PaymentState, to: PaymentState) {
    match kind
    case Indexer =>
      Observing(from, to) || (from == ORACLE_VERIFIED && to == AWAITING_MANAGER) || (from == CONFIRMING && to == SETTLEMENT_FAILED)
    case Reconciler => Observing(from, to) || Reconciling(from, to)
    case System => Housekeeping(from, to)
    case User => false
  }

  predicate SomebodyMay(from: PaymentState, to: PaymentState) {
    RoleMay(OWNER, from, to) || MachineMay(Indexer, from, to) || MachineMay(Reconciler, from, to) || MachineMay(System, from, to)
  }

  lemma TableLeaves(from: PaymentState, to: PaymentState)
    ensures FindTransition(from, to).Some? ==> from != to && from !in TERMINAL_STATES
  {
  }

  lemma TableUsers(from: PaymentState, to: PaymentState)
    ensures FindTransition(from, to).Some? ==>
      var rule := FindTransition(from, to).value;
      (User in rule.actors <==> RoleMay(OWNER, from, to)) && (User in rule.actors ==> rule.roles != {})
  {
  }

  lemma TableSystem(from: PaymentState, to: PaymentState)
    ensures FindTransition(from, to).Some? ==> (System in FindTransition(from, to).value.actors <==> MachineMay(System, from, to))
  {
  }

  lemma TableObservers(from: PaymentState, to: PaymentState)
    ensures FindTransition(from, to).Some? ==>
      var rule := FindTransition(from, to).value;
      && (Indexer in rule.actors <==> MachineMay(Indexer, from, to))
      && (Reconciler in rule.actors <==> MachineMay(Reconciler, from, to))
  {
  }

  lemma TableCoversUsers(from: PaymentState, to: PaymentState)
    ensures Preparing(from, to) || SettlingMove(from, to) || FinanceDecision(from, to) || Closing(from, to) ==> FindTransition(from, to).Some?
  {
  }

  lemma TableCoversMachines(from: PaymentState, to: PaymentState)
    ensures Observing(from, to) || Reconciling(from, to) || Housekeeping(from, to) ==> FindTransition(from, to).Some?
    ensures FindTransition(ORACLE_VERIFIED, AWAITING_MANAGER).Some? && FindTransition(CONFIRMING, SETTLEMENT_FAILED).Some?
  {
  }

  lemma EveryRuleNamesSomebody(from: PaymentState, to: PaymentState)
    ensures FindTransition(from, to).Some? ==> exists kind :: kind in FindTransition(from, to).value.actors
  {
    if FindTransition(from, to).Some? {
      var actors := FindTransition(from, to).value.actors;
      assert User in actors || Indexer in actors || Reconciler in actors || System in actors;
    }
  }

  /** The table names a pair of states if and only if somebody may make that move. */
  lemma TableExactly(from: PaymentState, to: PaymentState)
    ensures FindTransition(from, to).Some? <==> SomebodyMay(from, to)
  {
    TableUsers(from, to);
    TableSystem(from, to);
    TableObservers(from, to);
    TableCoversUsers(from, to);
    TableCoversMachines(from, to);
    EveryRuleNamesSomebody(from, to);
    hide FindTransition, Preparing, SettlingMove, FinanceDecision, Closing, Observing, Reconciling, Housekeeping;
    if FindTransition(from, to).Some? {
      var kind :| kind in FindTransition(from, to).value.actors;
      assert kind == User || kind == Indexer || kind == Reconciler || kind == System;
    }
  }

  lemma RolesExactly(role: OrgRole, from: PaymentState, to: PaymentState)
    ensures FindTransition(from, to).Some? && User in FindTransition(from, to).value.actors ==>
              (role in FindTransition(from, to).value.roles <==> RoleMay(role, from, to))
    ensures RoleMay(role, from, to) ==> RoleMay(OWNER, from, to)
  {
  }

  /** What the check answers, for every actor and every pair of states. */
  lemma CheckExactly(from: PaymentState, to: PaymentState, actor: Actor)
    ensures
      var check, user := CheckTransition(from, to, actor), actor.kind == User;
      && (check == SameState <==> from == to)
      && (check == Terminal <==> from != to && from in {PAID, REJECTED, CANCELLED, EXPIRED})
      && (check == InvalidTransition <==> from != to && from !in {PAID, REJECTED, CANCELLED, EXPIRED} && !SomebodyMay(from, to))
      && (check == ActorNotPermitted
          <==> SomebodyMay(from, to) && if user then !RoleMay(OWNER, from, to) else !MachineMay(actor.kind, from, to))
      && (check == RoleRequired <==> user && RoleMay(OWNER, from, to) && actor.role == None)
      && (check == RoleNotPermitted <==> user && RoleMay(OWNER, from, to) && actor.role.Some? && !RoleMay(actor.role.value, from, to))
      && (check == Allowed <==> if user then actor.role.Some? && RoleMay(actor.role.value, from, to) else MachineMay(actor.kind, from, to))
  {
    TableExactly(from, to);
    TableLeaves(from, to);
    TableUsers(from, to);
    TableSystem(from, to);
    TableObservers(from, to);
    if actor.kind == User && actor.role.Some? {
      RolesExactly(actor.role.value, from, to);
    }
    hide FindTransition, SomebodyMay, RoleMay, MachineMay;
    SomebodyIsSomebody(from, to, actor.kind);
  }

  lemma SomebodyIsSomebody(from: PaymentState, to: PaymentState, kind: ActorKind)
    ensures RoleMay(OWNER, from, to) || MachineMay(kind, from, to) ==> SomebodyMay(from, to)
    ensures !MachineMay(User, from, to)
  {
  }

  /**
   * Over every lawful history: a user's write is one its role may make, or the funding bridge's between draft and review;
   * so no worker or viewer ever changes anything else, and a payment waiting for finance is turned down by finance or an
   * administrator, never by the manager.
   */
  lemma RolesBindHistories(start: PaymentState, writes: seq<Write>, i: nat)
    requires Lawful(start, writes) && i < |writes| && writes[i].actor.kind == User
    ensures
      var from, w := StateAfter(start, writes[..i]), writes[i];
      && (FundingWrites(from, w.to) || (w.actor.role.Some? && RoleMay(w.actor.role.value, from, w.to)))
      && (from == AWAITING_FINANCE ==> w.to == REJECTED && w.actor.role in {Some(OWNER), Some(ADMIN), Some(OrgRole.FINANCE)})
  {
    EveryStepIsLawful(start, writes, i);
    CheckExactly(StateAfter(start, writes[..i]), writes[i].to, writes[i].actor);
    hide CheckTransition, Lawful, StateAfter, IndexerWrites, SomebodyMay;
  }
}
