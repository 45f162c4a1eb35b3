/**
 * Funding intents: one record per attempt, opened before a wallet is shown. Openers, signers, submitters, abandoners,
 * confirmers and the reconciler act at different moments; the unique idempotency key keeps the records from colliding.
 */
module Intents {
  import opened Prelude
  import opened Decimal
  import opened StateMachine
  import opened Eligibility
  import opened BatchPayments

  /** `escrow` is the on-chain escrow a confirmation found; a reconciler's correction sets none. */
  datatype Attempt = Attempt(
    batch: string, number: nat, key: string, status: TxStatus, hash: Option<string>, escrow: Option<nat>)

  /** One key per batch and attempt number. */
  function FundingKey(batch: string, number: nat): string {
    if number <= 1 then "fund:batch:" + batch else "fund:batch:" + batch + ":retry:" + Show(number)
  }

  const NOT_SUBMITTED: set<TxStatus> := {PREPARING, SIMULATING, AWAITING_SIGNATURE}

  /** The batch's attempt with the highest number. */
  function Latest(rows: seq<Attempt>, batch: string): (i: Option<nat>)
    ensures i.Some? ==> i.value < |rows| && rows[i.value].batch == batch
  {
    if rows == [] then None
    else
      var n := |rows| - 1;
      var before := Latest(rows[..n], batch);
      if rows[n].batch != batch then before
      else if before == None || rows[before.value].number < rows[n].number then Some(n)
      else before
  }

  predicate KeyTaken(rows: seq<Attempt>, key: string) {
    exists i :: 0 <= i < |rows| && rows[i].key == key
  }

  predicate HashTaken(rows: seq<Attempt>, hash: string) {
    exists i :: 0 <= i < |rows| && rows[i].hash == Some(hash)
  }

  // ----- the halves of each operation -----

  /**
   * An opener in the middle of its work: it has read the batch's payments but not yet its attempts, or it has read both,
   * found the batch fundable and has yet to insert its record.
   */
  datatype Opener =
    | Looked(batch: string, payments: seq<FundingPayment>)
    | Decided(batch: string, next: nat)

  /** What an abandoner, a confirmer or the reconciler has decided about an attempt and not yet written. */
  datatype Decision =
    | Abandon(userRejected: bool, nothingSubmitted: bool)
    | Confirm(id: nat)
    | Revert
    | Correct

  datatype Finisher = Finisher(row: nat, decision: Decision)

  /** A transaction for an attempt's plan that a wallet has signed and the network has accepted. */
  datatype Signature = Signature(row: nat, hash: string)

  datatype World = World(
    rows: seq<Attempt>, payments: seq<BatchPayment>, openers: map<nat, Opener>, finishers: map<nat, Finisher>,
    signed: set<Signature>)

  /** What confirming reads of the chain: the planned escrow, a transaction that failed, or nothing to act on. */
  datatype Seen = Settled(id: nat) | Reverted | Unclear

  datatype Event =
    | OpenLook(ticket: nat, batch: string)
    | OpenRead(ticket: nat, f: Funder)
    | OpenCommit(ticket: nat)
      /** Whoever was ever shown the attempt's plan, in whatever tab, signs and sends it; the server is not asked. */
    | Sign(row: nat, txHash: string)
    | Submit(row: nat, txHash: string)
    | FailRead(ticket: nat, row: nat, userRejected: bool)
    | ConfirmRead(ticket: nat, row: nat, seen: Seen)
    | CorrectRead(ticket: nat, row: nat)
    | FinishCommit(ticket: nat)
      /** Any other writer's change to one payment: its state or its hours, never its terms or its link. */
    | Edit(i: nat, state: PaymentState, hours: int)

  function LatestStatus(rows: seq<Attempt>, batch: string): Option<TxStatus> {
    var latest := Latest(rows, batch);
    if latest.Some? then Some(rows[latest.value].status) else None
  }

  /** Whether the latest attempt leaves room for another: none, or finished without being confirmed. */
  predicate RoomForAnother(rows: seq<Attempt>, batch: string) {
    var latest := LatestStatus(rows, batch);
    latest.Some? ==> latest.value !in IN_FLIGHT && latest.value != CONFIRMED
  }

  function NextNumber(rows: seq<Attempt>, batch: string): nat {
    var latest := Latest(rows, batch);
    if latest.Some? then rows[latest.value].number + 1 else 1
  }

  /** The insert: refused when the key exists. */
  function Inserted(rows: seq<Attempt>, batch: string, number: nat): seq<Attempt> {
    var key := FundingKey(batch, number);
    if KeyTaken(rows, key) then rows else rows + [Attempt(batch, number, key, AWAITING_SIGNATURE, None, None)]
  }

  /** The guarded update that records a submission. */
  function MarkSubmitted(rows: seq<Attempt>, row: nat, txHash: string): seq<Attempt> {
    if row < |rows| && rows[row].status in NOT_SUBMITTED && !HashTaken(rows, txHash)
    then rows[row := rows[row].(status := SUBMITTED, hash := Some(txHash))]
    else rows
  }

  function Resulting(d: Decision): TxStatus {
    match d
    case Abandon(userRejected, _) => if userRejected then TX_CANCELLED else FAILED
    case Revert => FAILED
    case _ => CONFIRMED
  }

  /** The unguarded write of a decision to its attempt. */
  function Concluding(rows: seq<Attempt>, f: Finisher): seq<Attempt>
    requires f.row < |rows|
  {
    rows[f.row := rows[f.row].(status := Resulting(f.decision),
                               escrow := if f.decision.Confirm? then Some(f.decision.id) else rows[f.row].escrow)]
  }

  /** What the same write does to the batch's payments. */
  function Settling(payments: seq<BatchPayment>, batch: string, d: Decision): seq<BatchPayment> {
    match d
    case Confirm(_) => Link(payments, batch)
    case Correct => payments
    case Revert => Restate(payments, batch, VALIDATING, DRAFT)
    case Abandon(_, nothingSubmitted) => if nothingSubmitted then Restate(payments, batch, VALIDATING, DRAFT) else payments
  }

  function Happens(w: World, e: Event): World {
    match e
    case OpenLook(t, batch) =>
      if t in w.openers then w else w.(openers := w.openers[t := Looked(batch, PaymentsOf(w.payments, batch))])
    case OpenRead(t, f) =>
      if t !in w.openers || w.openers[t].Decided? then w
      else
        var o := w.openers[t];
        if Blockers(Asked(o.payments, LatestStatus(w.rows, o.batch), f)) == []
        then w.(openers := w.openers[t := Decided(o.batch, NextNumber(w.rows, o.batch))])
        else w.(openers := w.openers - {t})
    case OpenCommit(t) =>
      if t !in w.openers || w.openers[t].Looked? then w
      else
        var o := w.openers[t];
        w.(rows := Inserted(w.rows, o.batch, o.next),
           payments := if KeyTaken(w.rows, FundingKey(o.batch, o.next)) then w.payments else Restate(w.payments, o.batch, DRAFT, VALIDATING),
           openers := w.openers - {t})
    case Sign(row, txHash) => if row < |w.rows| then w.(signed := w.signed + {Signature(row, txHash)}) else w
    case Submit(row, txHash) => w.(rows := MarkSubmitted(w.rows, row, txHash))
    case FailRead(t, row, userRejected) =>
      if row < |w.rows| && w.rows[row].status != CONFIRMED && t !in w.finishers
      then w.(finishers := w.finishers[t := Finisher(row, Abandon(userRejected, w.rows[row].hash == None))])
      else w
    case ConfirmRead(t, row, seen) =>
      if row < |w.rows| && w.rows[row].hash.Some? && !Answered(w.rows[row]) && t !in w.finishers && seen != Unclear
      then w.(finishers := w.finishers[t := Finisher(row, if seen.Settled? then Confirm(seen.id) else Revert)])
      else w
    case CorrectRead(t, row) =>
      if row < |w.rows| && w.rows[row].status == FAILED && w.rows[row].hash.Some? && t !in w.finishers
      then w.(finishers := w.finishers[t := Finisher(row, Correct)])
      else w
    case FinishCommit(t) =>
      if t !in w.finishers || w.finishers[t].row >= |w.rows| then w
      else
        var f := w.finishers[t];
        w.(rows := Concluding(w.rows, f), payments := Settling(w.payments, w.rows[f.row].batch, f.decision),
           finishers := w.finishers - {t})
    case Edit(i, state, hours) =>
      if i < |w.payments| then w.(payments := w.payments[i := w.payments[i].(p := w.payments[i].p.(state := state, hours := hours))])
      else w
  }

  /** Already confirmed against its escrow: confirming again only repeats the answer. */
  predicate Answered(a: Attempt) {
    a.status == CONFIRMED && a.escrow.Some?
  }

  function After(w: World, events: seq<Event>): World {
    if events == [] then w else Happens(After(w, events[..|events| - 1]), events[|events| - 1])
  }

  /** Batches with their payments, and no attempt yet. */
  function Start(payments: seq<BatchPayment>): World {
    World([], payments, map[], map[], {})
  }

  // ----- what every interleaving keeps -----

  predicate Finished(status: TxStatus) {
    status !in IN_FLIGHT
  }

  predicate HasAttempt(rows: seq<Attempt>, batch: string, number: nat) {
    exists i :: 0 <= i < |rows| && rows[i].batch == batch && rows[i].number == number
  }

  ghost predicate Keyed(rows: seq<Attempt>) {
    forall i :: 0 <= i < |rows| ==> rows[i].number >= 1 && rows[i].key == FundingKey(rows[i].batch, rows[i].number)
  }

  /** No number twice in a batch, none skipped, and only the highest may be in flight. */
  ghost predicate Numbered(rows: seq<Attempt>) {
    && (forall i, j :: 0 <= i < j < |rows| && rows[i].batch == rows[j].batch ==> rows[i].number != rows[j].number)
    && (forall i, m: nat :: 0 <= i < |rows| && 1 <= m <= rows[i].number ==> HasAttempt(rows, rows[i].batch, m))
    && (forall i, j :: 0 <= i < |rows| && 0 <= j < |rows| && rows[i].batch == rows[j].batch && rows[i].number < rows[j].number ==>
          Finished(rows[i].status))
  }

  /** What a pending opener read still holds: its predecessor exists, and everything before its number is finished. */
  ghost predicate StillTrue(rows: seq<Attempt>, o: Opener) {
    o.Decided? ==>
    && o.next >= 1 && (o.next > 1 ==> HasAttempt(rows, o.batch, o.next - 1))
    && forall i :: 0 <= i < |rows| && rows[i].batch == o.batch && rows[i].number < o.next ==> Finished(rows[i].status)
  }

  ghost predicate Sound(w: World) {
    && Keyed(w.rows) && Numbered(w.rows)
    && (forall t :: t in w.openers ==> StillTrue(w.rows, w.openers[t]))
    && (forall t :: t in w.finishers ==> w.finishers[t].row < |w.rows|)
  }

  lemma {:induction false} LatestIsHighest(rows: seq<Attempt>, batch: string)
    ensures
      var latest := Latest(rows, batch);
      && (latest == None <==> forall i :: 0 <= i < |rows| ==> rows[i].batch != batch)
      && (latest.Some? ==> forall i :: 0 <= i < |rows| && rows[i].batch == batch ==> rows[i].number <= rows[latest.value].number)
  {
    if rows != [] {
      var n := |rows| - 1;
      LatestIsHighest(rows[..n], batch);
      forall i | 0 <= i < n ensures rows[..n][i] == rows[i] {
      }
    }
  }

  /** What an opener reads is true when it reads it. */
  lemma OpenReadSound(w: World, batch: string)
    requires Sound(w) && RoomForAnother(w.rows, batch)
    ensures StillTrue(w.rows, Decided(batch, NextNumber(w.rows, batch)))
  {
    hide FundingKey;
    LatestIsHighest(w.rows, batch);
    var latest := Latest(w.rows, batch);
    if latest.Some? {
      var k := latest.value;
      assert HasAttempt(w.rows, batch, w.rows[k].number);
      forall i | 0 <= i < |w.rows| && w.rows[i].batch == batch && w.rows[i].number < w.rows[k].number + 1
        ensures Finished(w.rows[i].status)
      {
        if w.rows[i].number == w.rows[k].number {
          assert i == k;
        }
      }
    }
  }

  /** The unique key is the control: an insert that succeeds is for the very next number, after all others finished. */
  lemma InsertKeepsNumbered(rows: seq<Attempt>, o: Opener)
    requires Keyed(rows) && Numbered(rows) && o.Decided? && StillTrue(rows, o)
    ensures Keyed(Inserted(rows, o.batch, o.next)) && Numbered(Inserted(rows, o.batch, o.next))
  {
    hide FundingKey;
    var key := FundingKey(o.batch, o.next);
    forall i | 0 <= i < |rows| && rows[i].batch == o.batch ensures rows[i].number < o.next || KeyTaken(rows, key) {
      if rows[i].number >= o.next {
        assert HasAttempt(rows, o.batch, rows[i].number);
        EarlierIsTaken(rows, o.batch, rows[i].number, o.next);
      }
    }
    if !KeyTaken(rows, key) {
      var rows' := Inserted(rows, o.batch, o.next);
      forall i, m: nat | 0 <= i < |rows'| && 1 <= m <= rows'[i].number ensures HasAttempt(rows', rows'[i].batch, m) {
        if i < |rows| {
          assert HasAttempt(rows, rows[i].batch, m);
          StillHas(rows, rows', rows[i].batch, m);
        } else if m == o.next {
          assert rows'[|rows|].number == m;
        } else {
          var j :| 0 <= j < |rows| && rows[j].batch == o.batch && rows[j].number == o.next - 1;
          assert HasAttempt(rows, rows[j].batch, m);
          StillHas(rows, rows', o.batch, m);
        }
      }
    }
  }

  lemma StillHas(rows: seq<Attempt>, rows': seq<Attempt>, batch: string, number: nat)
    requires HasAttempt(rows, batch, number) && |rows| <= |rows'|
    requires forall i :: 0 <= i < |rows| ==> rows'[i].batch == rows[i].batch && rows'[i].number == rows[i].number
    ensures HasAttempt(rows', batch, number)
  {
    var i :| 0 <= i < |rows| && rows[i].batch == batch && rows[i].number == number;
    assert rows'[i].batch == batch;
  }

  lemma InsertKeepsPromises(rows: seq<Attempt>, batch: string, next: nat, o: Opener)
    requires StillTrue(rows, o) && Keyed(rows) && Numbered(rows) && StillTrue(rows, Decided(batch, next))
    ensures StillTrue(Inserted(rows, batch, next), o)
  {
    hide FundingKey;
    var rows' := Inserted(rows, batch, next);
    if o.Decided? && o.next > 1 {
      StillHas(rows, rows', o.batch, o.next - 1);
    }
    if o.Decided? && batch == o.batch && next < o.next {
      EarlierIsTaken(rows, batch, o.next - 1, next);
    }
  }

  lemma EarlierIsTaken(rows: seq<Attempt>, batch: string, number: nat, earlier: nat)
    requires Keyed(rows) && Numbered(rows) && HasAttempt(rows, batch, number) && 1 <= earlier <= number
    ensures KeyTaken(rows, FundingKey(batch, earlier))
  {
    hide FundingKey;
    var j :| 0 <= j < |rows| && rows[j].batch == batch && rows[j].number == number;
    assert HasAttempt(rows, rows[j].batch, earlier);
    var k :| 0 <= k < |rows| && rows[k].batch == batch && rows[k].number == earlier;
    assert rows[k].key == FundingKey(batch, earlier);
  }

  /** Changing one record's status to a finished one, or submitting one not yet submitted, keeps everything. */
  lemma UpdateKeeps(w: World, row: nat, a: Attempt)
    requires Sound(w) && row < |w.rows|
    requires a == w.rows[row].(status := a.status, hash := a.hash, escrow := a.escrow)
    requires Finished(a.status) || !Finished(w.rows[row].status)
    ensures
      var rows' := w.rows[row := a];
      Keyed(rows') && Numbered(rows') && forall t :: t in w.openers ==> StillTrue(rows', w.openers[t])
  {
    hide FundingKey;
    var rows' := w.rows[row := a];
    forall i, m: nat | 0 <= i < |rows'| && 1 <= m <= rows'[i].number ensures HasAttempt(rows', rows'[i].batch, m) {
      assert HasAttempt(w.rows, w.rows[i].batch, m);
      StillHas(w.rows, rows', w.rows[i].batch, m);
    }
    forall t | t in w.openers ensures StillTrue(rows', w.openers[t]) {
      if w.openers[t].Decided? && w.openers[t].next > 1 {
        StillHas(w.rows, rows', w.openers[t].batch, w.openers[t].next - 1);
      }
    }
  }

  lemma EventSound(w: World, e: Event)
    requires Sound(w)
    ensures Sound(Happens(w, e))
  {
    hide Keyed, Numbered, StillTrue, Inserted, Latest, Settling, Restate, PaymentsOf, FundingKey;
    match e {
      case OpenLook(t, batch) => LookedIsTrue(w.rows, batch, PaymentsOf(w.payments, batch));
      case OpenRead(t, f) =>
        if t in w.openers && w.openers[t].Looked? {
          var o := w.openers[t];
          AttemptBlocks(o.payments, LatestStatus(w.rows, o.batch), f);
          if RoomForAnother(w.rows, o.batch) {
            OpenReadSound(w, o.batch);
          }
        }
      case OpenCommit(t) =>
        if t in w.openers && w.openers[t].Decided? {
          CommitSound(w, t);
        }
      case Submit(row, txHash) =>
        if row < |w.rows| && w.rows[row].status in NOT_SUBMITTED {
          UpdateKeeps(w, row, w.rows[row].(status := SUBMITTED, hash := Some(txHash)));
        }
      case FinishCommit(t) =>
        if t in w.finishers {
          UpdateKeeps(w, w.finishers[t].row, Concluding(w.rows, w.finishers[t])[w.finishers[t].row]);
        }
      case _ =>
    }
  }

  lemma LookedIsTrue(rows: seq<Attempt>, batch: string, payments: seq<FundingPayment>)
    ensures StillTrue(rows, Looked(batch, payments))
  {
  }

  lemma CommitSound(w: World, t: nat)
    requires Sound(w) && t in w.openers && w.openers[t].Decided?
    ensures Sound(Happens(w, OpenCommit(t)))
  {
    hide Keyed, Numbered, StillTrue, Inserted, Restate, FundingKey, KeyTaken;
    var o := w.openers[t];
    InsertKeepsNumbered(w.rows, o);
    forall u | u in w.openers ensures StillTrue(Inserted(w.rows, o.batch, o.next), w.openers[u]) {
      InsertKeepsPromises(w.rows, o.batch, o.next, w.openers[u]);
    }
    InsertGrows(w.rows, o.batch, o.next);
  }

  lemma InsertGrows(rows: seq<Attempt>, batch: string, number: nat)
    ensures |rows| <= |Inserted(rows, batch, number)|
  {
  }

  lemma {:induction false} EveryInterleaving(payments: seq<BatchPayment>, events: seq<Event>)
    ensures Sound(After(Start(payments), events))
  {
    hide Happens, Sound;
    if events == [] {
      StartIsSound(payments);
    } else {
      EveryInterleaving(payments, events[..|events| - 1]);
      EventSound(After(Start(payments), events[..|events| - 1]), events[|events| - 1]);
    }
  }

  lemma StartIsSound(payments: seq<BatchPayment>)
    ensures Sound(Start(payments))
  {
  }

  /**
   * In every interleaving, a batch's attempts are numbered 1..n without gap or repeat, and at most one, the last, is
   * in flight.
   */
  lemma AttemptsAreNumbered(payments: seq<BatchPayment>, events: seq<Event>, batch: string) returns (n: nat)
    ensures
      var rows := After(Start(payments), events).rows;
      && (forall m :: 1 <= m <= n <==> m >= 1 && HasAttempt(rows, batch, m))
      && (forall i, j :: 0 <= i < j < |rows| && rows[i].batch == rows[j].batch == batch ==> rows[i].number != rows[j].number)
      && (forall i :: 0 <= i < |rows| && rows[i].batch == batch && rows[i].status in IN_FLIGHT ==> rows[i].number == n)
  {
    EveryInterleaving(payments, events);
    hide After, FundingKey;
    var rows := After(Start(payments), events).rows;
    LatestIsHighest(rows, batch);
    var latest := Latest(rows, batch);
    n := if latest.Some? then rows[latest.value].number else 0;
    forall m: nat | m >= 1 ensures m <= n <==> HasAttempt(rows, batch, m) {
      if m <= n {
        assert HasAttempt(rows, rows[latest.value].batch, m);
      }
      if HasAttempt(rows, batch, m) {
        var i :| 0 <= i < |rows| && rows[i].batch == batch && rows[i].number == m;
      }
    }
  }

  lemma EventLeavesFinished(w: World, e: Event, i: nat)
    requires i < |w.rows| && Finished(w.rows[i].status)
    ensures
      var rows := Happens(w, e).rows;
      i < |rows| && Finished(rows[i].status) && rows[i].batch == w.rows[i].batch && rows[i].number == w.rows[i].number
  {
    hide Blockers, Settling, Restate, PaymentsOf, FundingKey, Latest, KeyTaken, HashTaken;
  }

  /** A finished attempt never becomes in flight again. */
  lemma {:induction false} FinishedForGood(w: World, events: seq<Event>, i: nat)
    requires i < |w.rows| && Finished(w.rows[i].status)
    ensures
      var rows := After(w, events).rows;
      i < |rows| && Finished(rows[i].status) && rows[i].batch == w.rows[i].batch && rows[i].number == w.rows[i].number
  {
    hide Happens, Finished;
    if events != [] {
      FinishedForGood(w, events[..|events| - 1], i);
      EventLeavesFinished(After(w, events[..|events| - 1]), events[|events| - 1], i);
    }
  }

  /** No transaction is recorded on two attempts, of any batch. */
  ghost predicate HashesDiffer(rows: seq<Attempt>) {
    forall i, j :: 0 <= i < j < |rows| && rows[i].hash.Some? ==> rows[j].hash != rows[i].hash
  }

  lemma EventKeepsHashes(w: World, e: Event)
    requires HashesDiffer(w.rows)
    ensures HashesDiffer(Happens(w, e).rows)
  {
    hide Blockers, Settling, Restate, PaymentsOf, FundingKey, Latest, KeyTaken;
  }

  /** In every interleaving, each transaction is recorded on one attempt at most. */
  lemma {:induction false} HashesAreDistinct(payments: seq<BatchPayment>, events: seq<Event>)
    ensures HashesDiffer(After(Start(payments), events).rows)
  {
    hide Happens;
    if events != [] {
      HashesAreDistinct(payments, events[..|events| - 1]);
      EventKeepsHashes(After(Start(payments), events[..|events| - 1]), events[|events| - 1]);
    }
  }

  // ----- a confirmed attempt, exactly -----

  /** Someone read the attempt before it was confirmed, decided otherwise, and has yet to write. */
  ghost predicate Contradicted(w: World, i: nat) {
    exists t :: t in w.finishers && w.finishers[t].row == i && Resulting(w.finishers[t].decision) != CONFIRMED
  }

  /** That, or the attempt was only corrected by the reconciler, so that confirming will look at the chain again. */
  ghost predicate Overwritable(w: World, i: nat)
    requires i < |w.rows|
  {
    (w.rows[i].escrow == None && w.rows[i].hash.Some?) || Contradicted(w, i)
  }

  lemma EventConfirmedStays(w: World, e: Event, i: nat)
    requires i < |w.rows| && w.rows[i].status == CONFIRMED && !Overwritable(w, i)
    ensures
      var w' := Happens(w, e);
      i < |w'.rows| && w'.rows[i].status == CONFIRMED && !Overwritable(w', i)
  {
    hide Blockers, Settling, Restate, PaymentsOf, FundingKey, Latest, KeyTaken, HashTaken;
  }

  lemma {:induction false} ConfirmedStays(w: World, events: seq<Event>, i: nat)
    requires i < |w.rows| && w.rows[i].status == CONFIRMED && !Overwritable(w, i)
    ensures
      var w' := After(w, events);
      i < |w'.rows| && w'.rows[i].status == CONFIRMED && !Overwritable(w', i)
  {
    hide Happens, Overwritable;
    if events != [] {
      ConfirmedStays(w, events[..|events| - 1], i);
      EventConfirmedStays(After(w, events[..|events| - 1]), events[|events| - 1], i);
    }
  }

  /**
   * CONFIRMED is final exactly when it names its escrow and no contrary decision is still to be written: the writes
   * themselves have no guard.
   */
  lemma ConfirmedIsFinalExactly(w: World, i: nat)
    requires Sound(w) && i < |w.rows| && w.rows[i].status == CONFIRMED
    ensures
      (forall events: seq<Event> :: i < |After(w, events).rows| && After(w, events).rows[i].status == CONFIRMED)
      <==> !Overwritable(w, i)
  {
    hide Sound;
    if Contradicted(w, i) {
      var t :| t in w.finishers && w.finishers[t].row == i && Resulting(w.finishers[t].decision) != CONFIRMED;
      var late := [FinishCommit(t)];
      AfterOne(w, late[0]);
      assert After(w, late).rows[i].status != CONFIRMED;
    } else if w.rows[i].escrow == None && w.rows[i].hash.Some? {
      var t := FreshTicket(w.finishers.Keys);
      var late := [ConfirmRead(t, i, Reverted), FinishCommit(t)];
      AfterTwo(w, late[0], late[1]);
      assert After(w, late).rows[i].status != CONFIRMED;
    } else {
      forall events: seq<Event> ensures i < |After(w, events).rows| && After(w, events).rows[i].status == CONFIRMED {
        ConfirmedStays(w, events, i);
      }
    }
  }

  lemma AfterOne(w: World, e: Event)
    ensures After(w, [e]) == Happens(w, e)
  {
    hide Happens;
    assert [e][..0] == [];
    assert After(w, [e][..0]) == w;
  }

  lemma AfterTwo(w: World, e: Event, g: Event)
    ensures After(w, [e, g]) == Happens(Happens(w, e), g)
  {
    hide Happens;
    AfterOne(w, e);
    assert [e, g][..1] == [e];
  }

  lemma {:induction false} FreshTicket(taken: set<nat>) returns (t: nat)
    ensures forall u :: u in taken ==> u < t
  {
    t := 0;
    if taken != {} {
      var x :| x in taken;
      var rest := FreshTicket(taken - {x});
      t := if rest <= x then x + 1 else rest;
      forall u | u in taken ensures u < t {
        assert u == x || u in taken - {x};
      }
    }
  }

  // ----- the key -----

  predicate NoColon(s: string) {
    forall i :: 0 <= i < |s| ==> s[i] != ':'
  }

  function KeySuffix(number: nat): string {
    if number <= 1 then "" else ":retry:" + Show(number)
  }

  function FirstColon(s: string): nat {
    if s == "" || s[0] == ':' then 0 else 1 + FirstColon(s[1..])
  }

  lemma {:induction false} ColonAfter(a: string, x: string)
    requires NoColon(a) && (x == "" || x[0] == ':')
    ensures FirstColon(a + x) == |a|
  {
    if a == "" {
      assert a + x == x;
    } else {
      ColonAfter(a[1..], x);
      assert (a + x)[1..] == a[1..] + x;
    }
  }

  lemma SuffixAfterColon(a: string, x: string, b: string, y: string)
    requires a + x == b + y && NoColon(a) && NoColon(b)
    requires (x == "" || x[0] == ':') && (y == "" || y[0] == ':')
    ensures a == b && x == y
  {
    ColonAfter(a, x);
    ColonAfter(b, y);
    assert (a + x)[..|a|] == a && (b + y)[..|b|] == b;
    assert (a + x)[|a|..] == x && (b + y)[|b|..] == y;
  }

  lemma SuffixInjective(m: nat, n: nat)
    requires m >= 1 && n >= 1 && KeySuffix(m) == KeySuffix(n)
    ensures m == n
  {
    if m > 1 && n > 1 {
      assert KeySuffix(m)[7..] == Show(m) && KeySuffix(n)[7..] == Show(n);
      ShowRead(m);
      ShowRead(n);
    }
  }

  /** Batch ids without a colon, as generated ids are, give every attempt a key of its own. */
  lemma KeysAreDistinct(a: string, m: nat, b: string, n: nat)
    requires NoColon(a) && NoColon(b) && m >= 1 && n >= 1 && FundingKey(a, m) == FundingKey(b, n)
    ensures a == b && m == n
  {
    KeyShape(a, m);
    KeyShape(b, n);
    hide FundingKey, KeySuffix, NoColon, Show;
    DropHead(HEAD, a + KeySuffix(m), b + KeySuffix(n));
    SuffixAfterColon(a, KeySuffix(m), b, KeySuffix(n));
    SuffixInjective(m, n);
  }

  const HEAD := "fund:batch:"

  lemma KeyShape(batch: string, number: nat)
    ensures FundingKey(batch, number) == HEAD + (batch + KeySuffix(number))
    ensures KeySuffix(number) == "" || KeySuffix(number)[0] == ':'
  {
  }

  lemma DropHead(head: string, x: string, y: string)
    requires head + x == head + y
    ensures x == y
  {
    assert (head + x)[|head|..] == x && (head + y)[|head|..] == y;
  }

  /** Without that, two batches can share a key, and the second can never be opened at that number. */
  lemma KeysCanCollide()
    ensures FundingKey("b:retry:2", 1) == FundingKey("b", 2)
  {
    assert Show(2) == "2";
  }
}
