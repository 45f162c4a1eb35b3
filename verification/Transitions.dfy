/**
 * Applying a transition: a read, a check, then a compare-and-swap of the state together with an audit row. Other
 * actors' reads and swaps may fall anywhere between this one's.
 */
module Transitions {
  import opened StateMachine

  type PaymentId = string

  datatype AuditRow = AuditRow(payment: PaymentId, previous: PaymentState, next: PaymentState, actor: Actor)

  datatype Request = Request(payment: PaymentId, org: string, to: PaymentState, actor: Actor)

  datatype Row = Row(org: string, state: PaymentState)

  /** A request that has read its payment and passed the check, and has yet to swap. */
  datatype Ready = Ready(request: Request, from: PaymentState)

  datatype Refusal = NotFound | Refused(check: Check) | ConcurrentModification

  datatype ReadOutcome = Proceed(ready: Ready) | AlreadyThere | Rejected(why: Refusal)

  datatype Store = Store(payments: map<PaymentId, Row>, audits: seq<AuditRow>)

  /** The read half: find the payment within the organization, and check the table. */
  function ReadHalf(s: Store, r: Request): ReadOutcome {
    if r.payment !in s.payments || s.payments[r.payment].org != r.org then Rejected(NotFound)
    else
      var from := s.payments[r.payment].state;
      if from == r.to then AlreadyThere
      else if CheckTransition(from, r.to, r.actor) == Allowed then Proceed(Ready(r, from))
      else Rejected(Refused(CheckTransition(from, r.to, r.actor)))
  }

  /** The swap half: only if the payment is still in the state that was read. */
  function SwapHalf(s: Store, ready: Ready): (bool, Store) {
    var r := ready.request;
    if r.payment in s.payments && s.payments[r.payment] == Row(r.org, ready.from)
    then (true, Store(s.payments[r.payment := Row(r.org, r.to)], s.audits + [AuditRow(r.payment, ready.from, r.to, r.actor)]))
    else (false, s)
  }

  // ----- arbitrary interleavings -----

  /** The store and every request that has read but not swapped. */
  datatype World = World(store: Store, inFlight: map<nat, Ready>)

  datatype Event = Read(ticket: nat, request: Request) | Swap(ticket: nat)

  function Happens(w: World, e: Event): World {
    match e
    case Read(ticket, request) =>
      var o := ReadHalf(w.store, request);
      if o.Proceed? && ticket !in w.inFlight then w.(inFlight := w.inFlight[ticket := o.ready]) else w
    case Swap(ticket) =>
      if ticket in w.inFlight
      then World(SwapHalf(w.store, w.inFlight[ticket]).1, w.inFlight - {ticket})
      else w
  }

  function Interleave(w: World, events: seq<Event>): World {
    if events == [] then w else Happens(Interleave(w, events[..|events| - 1]), events[|events| - 1])
  }

  /** One payment's audit rows, in the order they were written. */
  function TrailOf(audits: seq<AuditRow>, p: PaymentId): seq<AuditRow> {
    if audits == [] then []
    else
      var last := audits[|audits| - 1];
      TrailOf(audits[..|audits| - 1], p) + if last.payment == p then [last] else []
  }

  /** A trail that starts at `start`, links state to state through table transitions, and ends at `end`. */
  predicate LinkedChain(start: PaymentState, trail: seq<AuditRow>, end: PaymentState) {
    if trail == [] then start == end
    else
      var last := trail[|trail| - 1];
      && LinkedChain(start, trail[..|trail| - 1], last.previous)
      && CheckTransition(last.previous, last.next, last.actor) == Allowed
      && last.next == end
  }

  ghost predicate Checked(w: World) {
    forall t :: t in w.inFlight ==>
      var ready := w.inFlight[t];
      CheckTransition(ready.from, ready.request.to, ready.request.actor) == Allowed
  }

  /** A successful swap of this payment adds one link at the end of its trail. */
  lemma TrailGrows(start: PaymentState, audits: seq<AuditRow>, row: AuditRow, p: PaymentId)
    requires CheckTransition(row.previous, row.next, row.actor) == Allowed
    requires LinkedChain(start, TrailOf(audits, p), row.previous) || row.payment != p
    ensures TrailOf(audits + [row], p) == if row.payment == p then TrailOf(audits, p) + [row] else TrailOf(audits, p)
    ensures row.payment == p ==> LinkedChain(start, TrailOf(audits + [row], p), row.next)
  {
    hide CheckTransition;
    assert (audits + [row])[..|audits|] == audits;
    var trail := TrailOf(audits, p);
    assert (trail + [row])[..|trail|] == trail;
  }

  /**
   * However the reads and swaps of any number of actors interleave, each payment's audit rows form one unbroken
   * chain of permitted transitions from the state it began in to exactly the state it is in now.
   */
  lemma {:induction false} AuditIsALinkedChain(initial: Store, events: seq<Event>, p: PaymentId)
    requires initial.audits == [] && p in initial.payments
    ensures
      var w := Interleave(World(initial, map[]), events);
      && p in w.store.payments && Checked(w)
      && LinkedChain(initial.payments[p].state, TrailOf(w.store.audits, p), w.store.payments[p].state)
  {
    hide CheckTransition;
    if events != [] {
      AuditIsALinkedChain(initial, events[..|events| - 1], p);
      var w := Interleave(World(initial, map[]), events[..|events| - 1]);
      var e := events[|events| - 1];
      if e.Swap? && e.ticket in w.inFlight && SwapHalf(w.store, w.inFlight[e.ticket]).0 {
        var ready := w.inFlight[e.ticket];
        var row := AuditRow(ready.request.payment, ready.from, ready.request.to, ready.request.actor);
        TrailGrows(initial.payments[p].state, w.store.audits, row, p);
      }
    }
  }

  /** The writes a trail records. */
  function HistoryOf(trail: seq<AuditRow>): seq<Write> {
    seq(|trail|, i requires 0 <= i < |trail| => Write(trail[i].actor, trail[i].next))
  }

  /** An unbroken trail is a lawful history, so a trail that ends PAID shows every gate having been passed in order. */
  lemma {:induction false} TrailIsLawful(start: PaymentState, trail: seq<AuditRow>, end: PaymentState)
    requires LinkedChain(start, trail, end)
    ensures Lawful(start, HistoryOf(trail)) && StateAfter(start, HistoryOf(trail)) == end
  {
    hide CheckTransition;
    if trail != [] {
      var n := |trail| - 1;
      TrailIsLawful(start, trail[..n], trail[n].previous);
      assert HistoryOf(trail)[..n] == HistoryOf(trail[..n]);
    }
  }

  /** Two requests that read the same state: whichever swaps second, with no one between, is refused. */
  lemma SecondSwapIsRefused(s: Store, a: Ready, b: Ready)
    requires a.request.payment == b.request.payment && a.from == b.from && a.request.to != a.from
    requires SwapHalf(s, a).0
    ensures !SwapHalf(SwapHalf(s, a).1, b).0
    ensures SwapHalf(SwapHalf(s, a).1, b).1 == SwapHalf(s, a).1
  {
  }

  // ----- organizations -----

  /** The last swap of this ticket's request, as the request that was read. */
  ghost predicate ByOwnOrganization(w: World) {
    forall t :: t in w.inFlight ==>
      var r := w.inFlight[t].request;
      r.payment in w.store.payments && w.store.payments[r.payment].org == r.org
  }

  /** Rows never change hands, and only requests of a payment's own organization are ever carried out on it. */
  ghost predicate SameOwners(initial: Store, w: World) {
    && w.store.payments.Keys == initial.payments.Keys
    && (forall p :: p in initial.payments ==> w.store.payments[p].org == initial.payments[p].org)
    && ByOwnOrganization(w)
  }

  lemma OwnersStay(initial: Store, w: World, e: Event)
    requires SameOwners(initial, w)
    ensures SameOwners(initial, Happens(w, e))
  {
    hide CheckTransition;
  }

  /** A request naming another organization's payment is not found, however the others interleave, and changes nothing. */
  lemma {:induction false} TenantsAreSeparate(initial: Store, events: seq<Event>, r: Request)
    requires r.payment !in initial.payments || initial.payments[r.payment].org != r.org
    ensures
      var w := Interleave(World(initial, map[]), events);
      && SameOwners(initial, w) && ReadHalf(w.store, r) == Rejected(NotFound)
      && forall t :: Happens(w, Read(t, r)) == w
  {
    hide CheckTransition;
    if events != [] {
      var n := |events| - 1;
      TenantsAreSeparate(initial, events[..n], r);
      OwnersStay(initial, Interleave(World(initial, map[]), events[..n]), events[n]);
      hide Happens;
    }
  }

  // ----- the service -----

  datatype Outcome = Changed(previous: PaymentState, next: PaymentState) | Unchanged(state: PaymentState) | Failed(why: Refusal)

  /** A transition with nobody in between. */
  function ApplySpec(s: Store, r: Request): (Outcome, Store) {
    match ReadHalf(s, r)
    case Rejected(why) => (Failed(why), s)
    case AlreadyThere => (Unchanged(r.to), s)
    case Proceed(ready) => (Changed(ready.from, r.to), SwapHalf(s, ready).1)
  }

  class TransitionService {
    var payments: map<PaymentId, Row>
    var audits: seq<AuditRow>

    function Now(): Store
      reads this
    {
      Store(payments, audits)
    }

    constructor (payments: map<PaymentId, Row>)
      ensures Now() == Store(payments, [])
    {
      this.payments, audits := payments, [];
    }

    method Swap(ready: Ready) returns (ok: bool)
      modifies this
      ensures (ok, Now()) == SwapHalf(old(Now()), ready)
    {
      var r := ready.request;
      if r.payment !in payments { return false; }
      if payments[r.payment] != Row(r.org, ready.from) { return false; }
      payments := payments[r.payment := Row(r.org, r.to)];
      audits := audits + [AuditRow(r.payment, ready.from, r.to, r.actor)];
      return true;
    }

    method ApplyTransition(r: Request) returns (o: Outcome)
      modifies this
      ensures (o, Now()) == ApplySpec(old(Now()), r)
    {
      if r.payment !in payments || payments[r.payment].org != r.org { return Failed(NotFound); }
      var from := payments[r.payment].state;
      if from == r.to { return Unchanged(from); }
      var check := CheckTransition(from, r.to, r.actor);
      if check != Allowed { return Failed(Refused(check)); }
      var ok := Swap(Ready(r, from));
      if !ok { return Failed(ConcurrentModification); }
      return Changed(from, r.to);
    }
  }

  /**
   * What the service answers with nobody in between, and what it writes: the state and one audit row, only when the table
   * allows the move to this actor.
   */
  lemma AnswerExactly(s: Store, r: Request)
    ensures
      var (o, s') := ApplySpec(s, r);
      var here := r.payment in s.payments && s.payments[r.payment].org == r.org;
      && (o == Failed(NotFound) <==> !here)
      && (o == Unchanged(r.to) <==> here && s.payments[r.payment].state == r.to)
      && o != Failed(ConcurrentModification)
      && (here ==>
            var from := s.payments[r.payment].state;
            && (o.Changed? <==> CheckTransition(from, r.to, r.actor) == Allowed)
            && (o.Changed? ==> o == Changed(from, r.to))
            && (o.Failed? ==> o == Failed(Refused(CheckTransition(from, r.to, r.actor)))))
      && (o.Changed? ==>
            var from := s.payments[r.payment].state;
            && s'.payments == s.payments[r.payment := Row(r.org, r.to)]
            && s'.audits == s.audits + [AuditRow(r.payment, from, r.to, r.actor)])
      && (!o.Changed? ==> s' == s)
  {
    hide FindTransition;
  }
}
