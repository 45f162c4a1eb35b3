/**
 * What the attempt records say of the control that funding exists for: of each batch at most one recorded transaction
 * settles and at most one attempt is confirmed, and exactly which abandonment can break that. What wallets sign beyond the
 * records is the subject of the signing results.
 */
module DoubleFunding {
  import opened Prelude
  import opened StateMachine
  import opened Eligibility
  import opened BatchPayments
  import opened Intents

  /** Which recorded transactions the chain settles, each creating an escrow and moving the batch's money. */
  type Ledger = string -> bool

  /** The attempt's recorded transaction is one that moves the money. */
  predicate Paid(settles: Ledger, a: Attempt) {
    a.hash.Some? && settles(a.hash.value)
  }

  /** And it has been signed and sent. */
  predicate Sent(settles: Ledger, w: World, row: nat)
    requires row < |w.rows|
  {
    Paid(settles, w.rows[row]) && Signature(row, w.rows[row].hash.value) in w.signed
  }

  /** Readers report the chain as it is, or nothing. */
  predicate TruthfulEvent(settles: Ledger, w: World, e: Event) {
    match e
    case ConfirmRead(_, row, seen) =>
      row < |w.rows| && w.rows[row].hash.Some? ==>
        (seen.Settled? ==> Sent(settles, w, row)) && (seen.Reverted? ==> !Paid(settles, w.rows[row]))
    case CorrectRead(_, row) => row < |w.rows| && w.rows[row].hash.Some? ==> Sent(settles, w, row)
    case _ => true
  }

  /** An abandonment written over an attempt whose recorded transaction settles: its hash was there to be checked. */
  predicate Stray(settles: Ledger, w: World, e: Event) {
    && e.FinishCommit? && e.ticket in w.finishers && w.finishers[e.ticket].decision.Abandon?
    && w.finishers[e.ticket].row < |w.rows| && Paid(settles, w.rows[w.finishers[e.ticket].row])
  }

  predicate Truthful(settles: Ledger, w: World, events: seq<Event>) {
    events == [] ||
    (Truthful(settles, w, events[..|events| - 1]) && TruthfulEvent(settles, After(w, events[..|events| - 1]), events[|events| - 1]))
  }

  predicate Guarded(settles: Ledger, w: World, events: seq<Event>) {
    events == [] ||
    (Guarded(settles, w, events[..|events| - 1]) && !Stray(settles, After(w, events[..|events| - 1]), events[|events| - 1]))
  }

  // ----- what truthful readers keep -----

  /** What is written of an attempt agrees with its hash and the chain, and so does what is about to be. */
  ghost predicate Recorded(settles: Ledger, w: World) {
    && (forall i :: 0 <= i < |w.rows| ==>
          && (w.rows[i].status in NOT_SUBMITTED ==> w.rows[i].hash == None)
          && (w.rows[i].status == CONFIRMED ==> Paid(settles, w.rows[i])))
    && (forall t :: t in w.finishers ==> w.finishers[t].row < |w.rows| && Backed(settles, w.rows[w.finishers[t].row], w.finishers[t].decision))
  }

  predicate Backed(settles: Ledger, a: Attempt, d: Decision) {
    match d
    case Confirm(_) => Paid(settles, a)
    case Correct => Paid(settles, a)
    case Revert => a.hash.Some? && !Paid(settles, a)
    case Abandon(_, _) => true
  }

  /** One attempt changed as the protocol changes it, with the decisions about to be written left or fewer. */
  lemma PutRecorded(settles: Ledger, w: World, w': World, row: nat, a: Attempt)
    requires Recorded(settles, w) && row < |w.rows| && w'.rows == w.rows[row := a]
    requires forall t :: t in w'.finishers ==> t in w.finishers && w'.finishers[t] == w.finishers[t]
    requires w.rows[row].hash.Some? ==> a.hash == w.rows[row].hash
    requires (a.status in NOT_SUBMITTED ==> a.hash == None) && (a.status == CONFIRMED ==> Paid(settles, a))
    ensures Recorded(settles, w')
  {
    hide Paid;
    forall t | t in w'.finishers ensures w'.finishers[t].row < |w'.rows| && Backed(settles, w'.rows[w'.finishers[t].row], w'.finishers[t].decision) {
      StillBacked(settles, w.rows[w.finishers[t].row], w'.rows[w.finishers[t].row], w.finishers[t].decision);
    }
  }

  lemma StillBacked(settles: Ledger, a: Attempt, a': Attempt, d: Decision)
    requires Backed(settles, a, d) && (a.hash.Some? ==> a'.hash == a.hash)
    ensures Backed(settles, a', d)
  {
  }

  lemma EventRecorded(settles: Ledger, w: World, e: Event)
    requires Recorded(settles, w) && TruthfulEvent(settles, w, e)
    ensures Recorded(settles, Happens(w, e))
  {
    hide Blockers, Settling, Restate, PaymentsOf, FundingKey, Latest, KeyTaken, HashTaken;
    match e {
      case Submit(row, txHash) =>
        if Happens(w, e).rows != w.rows {
          PutRecorded(settles, w, Happens(w, e), row, w.rows[row].(status := SUBMITTED, hash := Some(txHash)));
        }
      case FinishCommit(t) =>
        if t in w.finishers {
          var f := w.finishers[t];
          PutRecorded(settles, w, Happens(w, e), f.row, Concluding(w.rows, f)[f.row]);
        }
      case OpenCommit(t) => if t in w.openers && w.openers[t].Decided? { InsertRecorded(settles, w, t); }
      case _ => hide MarkSubmitted, Concluding, Inserted;
    }
  }

  lemma InsertRecorded(settles: Ledger, w: World, t: nat)
    requires Recorded(settles, w) && t in w.openers && w.openers[t].Decided?
    ensures Recorded(settles, Happens(w, OpenCommit(t)))
  {
    hide Restate, PaymentsOf, FundingKey, KeyTaken, Paid, Backed;
  }

  // ----- what guarded abandonments keep -----

  /** Over, and not for having been confirmed. */
  predicate Dead(a: Attempt) {
    Finished(a.status) && a.status != CONFIRMED
  }

  /** Only the last attempt of a batch, or the one an opener is about to add, can have moved money. */
  ghost predicate Disciplined(settles: Ledger, w: World) {
    && (forall i :: 0 <= i < |w.rows| && Dead(w.rows[i]) ==> !Paid(settles, w.rows[i]))
    && (forall i, j :: 0 <= i < |w.rows| && 0 <= j < |w.rows| && w.rows[i].batch == w.rows[j].batch && w.rows[i].number < w.rows[j].number ==>
          Dead(w.rows[i]))
    && (forall t :: t in w.openers && w.openers[t].Decided? ==> Preceded(w.rows, w.openers[t].batch, w.openers[t].next))
  }

  ghost predicate Preceded(rows: seq<Attempt>, batch: string, next: nat) {
    forall i :: 0 <= i < |rows| && rows[i].batch == batch && rows[i].number < next ==> Dead(rows[i])
  }

  /** One attempt changed as the protocol changes it. */
  lemma PutDisciplined(settles: Ledger, w: World, w': World, row: nat, a: Attempt)
    requires Disciplined(settles, w) && row < |w.rows| && w'.rows == w.rows[row := a] && w'.openers == w.openers
    requires a.batch == w.rows[row].batch && a.number == w.rows[row].number
    requires Dead(w.rows[row]) ==> Dead(a)
    requires Dead(a) ==> !Paid(settles, a)
    ensures Disciplined(settles, w')
  {
    hide Paid, Dead;
    forall t | t in w'.openers && w'.openers[t].Decided? ensures Preceded(w'.rows, w'.openers[t].batch, w'.openers[t].next) {
      assert Preceded(w.rows, w.openers[t].batch, w.openers[t].next);
    }
  }

  lemma ReadDisciplined(settles: Ledger, w: World, batch: string)
    requires Sound(w) && Disciplined(settles, w) && RoomForAnother(w.rows, batch)
    ensures Preceded(w.rows, batch, NextNumber(w.rows, batch))
  {
    hide FundingKey, Paid;
    LatestIsHighest(w.rows, batch);
    var latest := Latest(w.rows, batch);
    forall i | 0 <= i < |w.rows| && w.rows[i].batch == batch && w.rows[i].number < NextNumber(w.rows, batch)
      ensures Dead(w.rows[i])
    {
      if w.rows[i].number == w.rows[latest.value].number {
        assert i == latest.value;
      }
    }
  }

  /** In a sound world whatever an opener has decided to insert is new only if it comes after all of its batch. */
  lemma InsertIsLast(w: World, t: nat, i: nat)
    requires Sound(w) && t in w.openers && w.openers[t].Decided? && i < |w.rows| && w.rows[i].batch == w.openers[t].batch
    requires !KeyTaken(w.rows, FundingKey(w.openers[t].batch, w.openers[t].next))
    ensures w.rows[i].number < w.openers[t].next
  {
    hide FundingKey, KeyTaken;
    if w.rows[i].number >= w.openers[t].next {
      assert HasAttempt(w.rows, w.rows[i].batch, w.rows[i].number);
      assert StillTrue(w.rows, w.openers[t]);
      EarlierIsTaken(w.rows, w.rows[i].batch, w.rows[i].number, w.openers[t].next);
    }
  }

  lemma CommitDisciplined(settles: Ledger, w: World, t: nat)
    requires Sound(w) && Disciplined(settles, w) && t in w.openers && w.openers[t].Decided?
    ensures Disciplined(settles, Happens(w, OpenCommit(t)))
  {
    hide FundingKey, KeyTaken, Restate;
    var o, w' := w.openers[t], Happens(w, OpenCommit(t));
    if !KeyTaken(w.rows, FundingKey(o.batch, o.next)) {
      forall i | 0 <= i < |w.rows| && w.rows[i].batch == o.batch ensures w.rows[i].number < o.next && Dead(w.rows[i]) {
        InsertIsLast(w, t, i);
        assert Preceded(w.rows, o.batch, o.next);
      }
      forall u | u in w'.openers && w'.openers[u].Decided? ensures Preceded(w'.rows, w'.openers[u].batch, w'.openers[u].next) {
        var q := w.openers[u];
        assert Preceded(w.rows, q.batch, q.next) && StillTrue(w.rows, q);
      }
    }
  }

  lemma EventDisciplined(settles: Ledger, w: World, e: Event)
    requires Sound(w) && Recorded(settles, w) && Disciplined(settles, w)
    requires TruthfulEvent(settles, w, e) && !Stray(settles, w, e)
    ensures Disciplined(settles, Happens(w, e))
  {
    hide Blockers, Settling, Restate, PaymentsOf, FundingKey, Latest, KeyTaken, HashTaken, Sound;
    match e {
      case OpenRead(t, f) =>
        if t in w.openers && w.openers[t].Looked? {
          var o := w.openers[t];
          AttemptBlocks(o.payments, LatestStatus(w.rows, o.batch), f);
          if RoomForAnother(w.rows, o.batch) {
            ReadDisciplined(settles, w, o.batch);
          }
        }
      case OpenCommit(t) =>
        if t in w.openers && w.openers[t].Decided? {
          CommitDisciplined(settles, w, t);
        }
      case Submit(row, txHash) =>
        if Happens(w, e).rows != w.rows {
          PutDisciplined(settles, w, Happens(w, e), row, w.rows[row].(status := SUBMITTED, hash := Some(txHash)));
        }
      case FinishCommit(t) =>
        if t in w.finishers {
          var row := w.finishers[t].row;
          PutDisciplined(settles, w, Happens(w, e), row, Concluding(w.rows, w.finishers[t])[row]);
        }
      case _ =>
    }
  }

  /** Everything that holds of a world reached by truthful readers and guarded abandonments. */
  ghost predicate Kept(settles: Ledger, w: World) {
    Sound(w) && Recorded(settles, w) && Disciplined(settles, w)
  }

  lemma {:induction false} RunKept(settles: Ledger, w: World, events: seq<Event>)
    requires Kept(settles, w) && Truthful(settles, w, events) && Guarded(settles, w, events)
    ensures Kept(settles, After(w, events))
  {
    hide Happens, Sound, Recorded, Disciplined, TruthfulEvent, Stray;
    if events != [] {
      var mid := After(w, events[..|events| - 1]);
      RunKept(settles, w, events[..|events| - 1]);
      EventSound(mid, events[|events| - 1]);
      EventRecorded(settles, mid, events[|events| - 1]);
      EventDisciplined(settles, mid, events[|events| - 1]);
    }
  }

  lemma StartIsKept(settles: Ledger, payments: seq<BatchPayment>)
    ensures Kept(settles, Start(payments))
  {
  }

  // ----- the control -----

  /** The attempt was confirmed at some moment of the run. */
  ghost predicate EverConfirmed(w: World, events: seq<Event>, i: nat) {
    exists k: nat :: k <= |events| && i < |After(w, events[..k]).rows| && After(w, events[..k]).rows[i].status == CONFIRMED
  }

  /** Truthful and guarded, a confirmed attempt stays confirmed. */
  lemma ConfirmedStaysSo(settles: Ledger, w: World, e: Event, i: nat)
    requires Kept(settles, w) && TruthfulEvent(settles, w, e) && !Stray(settles, w, e)
    requires i < |w.rows| && w.rows[i].status == CONFIRMED
    ensures i < |Happens(w, e).rows| && Happens(w, e).rows[i].status == CONFIRMED
  {
    hide Blockers, Settling, Restate, PaymentsOf, FundingKey, Latest, KeyTaken, HashTaken, Sound, Disciplined;
  }

  lemma {:induction false} EverIsNow(settles: Ledger, w: World, events: seq<Event>, i: nat)
    requires Kept(settles, w) && Truthful(settles, w, events) && Guarded(settles, w, events) && EverConfirmed(w, events, i)
    ensures i < |After(w, events).rows| && After(w, events).rows[i].status == CONFIRMED
  {
    hide Happens, Kept, TruthfulEvent, Stray;
    var k: nat :| k <= |events| && i < |After(w, events[..k]).rows| && After(w, events[..k]).rows[i].status == CONFIRMED;
    if k == |events| {
      assert events[..k] == events;
    } else {
      var front := events[..|events| - 1];
      assert front[..k] == events[..k];
      EverIsNow(settles, w, front, i);
      RunKept(settles, w, front);
      ConfirmedStaysSo(settles, After(w, front), events[|events| - 1], i);
    }
  }

  /** Two attempts of one batch. */
  predicate Siblings(rows: seq<Attempt>, i: nat, j: nat) {
    i < |rows| && j < |rows| && rows[i].batch == rows[j].batch
  }

  lemma OnePaid(settles: Ledger, w: World, i: nat, j: nat)
    requires Kept(settles, w) && Siblings(w.rows, i, j)
    requires Paid(settles, w.rows[i]) && Paid(settles, w.rows[j])
    ensures i == j
  {
    hide FundingKey, Paid, Dead;
  }

  /**
   * In every interleaving of openers, submitters, abandoners, confirmers, the reconciler and other writers, with truthful
   * readers: if no abandonment is written over an attempt whose recorded transaction settles, then of each batch at most
   * one recorded transaction settles, at most one attempt is ever CONFIRMED, and it stays so. It says nothing of
   * transactions that were signed and not recorded.
   */
  lemma OneFundingPerBatch(settles: Ledger, payments: seq<BatchPayment>, events: seq<Event>, i: nat, j: nat)
    requires Truthful(settles, Start(payments), events) && Guarded(settles, Start(payments), events)
    ensures
      var rows := After(Start(payments), events).rows;
      && (Siblings(rows, i, j) && Paid(settles, rows[i]) && Paid(settles, rows[j]) ==> i == j)
      && (EverConfirmed(Start(payments), events, i) ==> i < |rows| && rows[i].status == CONFIRMED && Paid(settles, rows[i]))
      && (Siblings(rows, i, j) && EverConfirmed(Start(payments), events, i) && EverConfirmed(Start(payments), events, j) ==> i == j)
  {
    hide After, Kept, Guarded, Truthful, EverConfirmed;
    var w := After(Start(payments), events);
    StartIsKept(settles, payments);
    RunKept(settles, Start(payments), events);
    if EverConfirmed(Start(payments), events, i) { ConfirmedIsPaid(settles, payments, events, i); }
    if EverConfirmed(Start(payments), events, j) { ConfirmedIsPaid(settles, payments, events, j); }
    if Siblings(w.rows, i, j) && Paid(settles, w.rows[i]) && Paid(settles, w.rows[j]) {
      OnePaid(settles, w, i, j);
    }
  }

  lemma ConfirmedIsPaid(settles: Ledger, payments: seq<BatchPayment>, events: seq<Event>, i: nat)
    requires Truthful(settles, Start(payments), events) && Guarded(settles, Start(payments), events)
    requires EverConfirmed(Start(payments), events, i)
    ensures
      var rows := After(Start(payments), events).rows;
      i < |rows| && rows[i].status == CONFIRMED && Paid(settles, rows[i])
  {
    hide After, Guarded, Truthful, EverConfirmed;
    StartIsKept(settles, payments);
    RunKept(settles, Start(payments), events);
    EverIsNow(settles, Start(payments), events, i);
  }

  // ----- the write that can break it, exactly -----

  ghost predicate StaleLook(w: World, batch: string) {
    exists t, f: Funder :: t in w.openers && w.openers[t].Looked? && w.openers[t].batch == batch && ClearFor(w.openers[t].payments, f)
  }

  /** Somebody could pass the eligibility check but for the attempts: on the payments as they are, or as an opener saw them. */
  ghost predicate Reopenable(w: World, batch: string) {
    (exists f: Funder :: ClearFor(PaymentsOf(w.payments, batch), f)) || StaleLook(w, batch)
  }

  ghost predicate TwoConfirmed(rows: seq<Attempt>, batch: string) {
    exists i, j :: 0 <= i < j < |rows| && rows[i].batch == rows[j].batch == batch && rows[i].status == rows[j].status == CONFIRMED
  }

  predicate FundingOnly(events: seq<Event>) {
    forall e :: e in events ==> !e.Edit?
  }

  /** The funding protocol alone, truthful and with every later abandonment guarded, can confirm two attempts of the batch. */
  ghost predicate Danger(settles: Ledger, w: World, batch: string) {
    exists more: seq<Event> ::
      FundingOnly(more) && Truthful(settles, w, more) && Guarded(settles, w, more) && TwoConfirmed(After(w, more).rows, batch)
  }

  lemma {:induction false} Prepended(settles: Ledger, w: World, e: Event, more: seq<Event>)
    requires TruthfulEvent(settles, w, e) && !Stray(settles, w, e)
    requires Truthful(settles, Happens(w, e), more) && Guarded(settles, Happens(w, e), more)
    ensures After(w, [e] + more) == After(Happens(w, e), more)
    ensures Truthful(settles, w, [e] + more) && Guarded(settles, w, [e] + more)
  {
    hide Happens, TruthfulEvent, Stray;
    var all := [e] + more;
    if more == [] {
      assert all == [e] && all[..0] == [];
      assert After(w, all[..0]) == w && Truthful(settles, w, all[..0]) && Guarded(settles, w, all[..0]);
    } else {
      assert all[..|all| - 1] == [e] + more[..|more| - 1];
      Prepended(settles, w, e, more[..|more| - 1]);
    }
  }

  lemma DangerBack(settles: Ledger, w: World, e: Event, batch: string)
    requires TruthfulEvent(settles, w, e) && !Stray(settles, w, e) && !e.Edit?
    requires Danger(settles, Happens(w, e), batch)
    ensures Danger(settles, w, batch)
  {
    hide Happens, TruthfulEvent, Stray, TwoConfirmed;
    var more: seq<Event> :| FundingOnly(more) && Truthful(settles, Happens(w, e), more) && Guarded(settles, Happens(w, e), more)
                            && TwoConfirmed(After(Happens(w, e), more).rows, batch);
    Prepended(settles, w, e, more);
    assert FundingOnly([e] + more);
  }

  lemma DangerNow(settles: Ledger, w: World, batch: string)
    requires TwoConfirmed(w.rows, batch)
    ensures Danger(settles, w, batch)
  {
    hide TwoConfirmed;
    var none: seq<Event> := [];
    assert FundingOnly(none) && Truthful(settles, w, none) && Guarded(settles, w, none) && After(w, none) == w;
  }

  /** An attempt whose transaction settles can be signed and confirmed, whatever its status says. */
  lemma Confirms(settles: Ledger, w: World, i: nat, t: nat) returns (w': World)
    requires i < |w.rows| && Paid(settles, w.rows[i]) && w.rows[i].status != CONFIRMED && t !in w.finishers
    ensures w'.rows == w.rows[i := w.rows[i].(status := CONFIRMED, escrow := Some(0))] && w'.finishers == w.finishers
    ensures forall batch :: Danger(settles, w', batch) ==> Danger(settles, w, batch)
  {
    hide Link, TwoConfirmed, Danger;
    var sign, read, write := Sign(i, w.rows[i].hash.value), ConfirmRead(t, i, Settled(0)), FinishCommit(t);
    var sent := Happens(w, sign);
    var mid := Happens(sent, read);
    w' := Happens(mid, write);
    assert w'.finishers == w.finishers;
    forall batch | Danger(settles, w', batch) ensures Danger(settles, w, batch) {
      DangerBack(settles, mid, write, batch);
      DangerBack(settles, sent, read, batch);
      DangerBack(settles, w, sign, batch);
    }
  }

  /** Two settled transactions of one batch can both be confirmed. */
  lemma BothConfirm(settles: Ledger, w: World, i: nat, j: nat, batch: string)
    requires i < j < |w.rows| && w.rows[i].batch == w.rows[j].batch == batch
    requires Paid(settles, w.rows[i]) && Paid(settles, w.rows[j]) && w.rows[i].status != CONFIRMED && w.rows[j].status != CONFIRMED
    ensures Danger(settles, w, batch)
  {
    hide Danger;
    var t := FreshTicket(w.finishers.Keys);
    var w1 := Confirms(settles, w, i, t);
    var w2 := Confirms(settles, w1, j, t);
    assert w2.rows[i].status == CONFIRMED && w2.rows[j].status == CONFIRMED;
    assert w2.rows[i].batch == batch && w2.rows[j].batch == batch;
    DangerNow(settles, w2, batch);
  }

  /** A look that was clear becomes a second settled attempt. */
  lemma SecondAttempt(settles: Ledger, w: World, i: nat, t: nat, f: Funder, batch: string, unused: string)
    requires i < |w.rows| && w.rows[i].batch == batch && Paid(settles, w.rows[i]) && w.rows[i].status != CONFIRMED
    requires t in w.openers && w.openers[t].Looked? && w.openers[t].batch == batch && ClearFor(w.openers[t].payments, f)
    requires RoomForAnother(w.rows, batch) && !KeyTaken(w.rows, FundingKey(batch, NextNumber(w.rows, batch)))
    requires settles(unused) && !HashTaken(w.rows, unused)
    ensures Danger(settles, w, batch)
  {
    hide Danger, Blockers, FundingKey, Restate, Latest, LatestStatus, KeyTaken, NextNumber;
    AttemptBlocks(w.openers[t].payments, LatestStatus(w.rows, batch), f);
    assert Blockers(Asked(w.openers[t].payments, LatestStatus(w.rows, batch), f)) == [] by {
      assert RoomForAnother(w.rows, batch);
    }
    var j := |w.rows|;
    var read, write, submit := OpenRead(t, f), OpenCommit(t), Submit(j, unused);
    var w1 := Happens(w, read);
    var w2 := Happens(w1, write);
    assert w2.rows[..j] == w.rows && w2.rows[j].status == AWAITING_SIGNATURE;
    StillFree(w.rows, w2.rows, unused);
    var w3 := Happens(w2, submit);
    assert w3.rows[j].hash == Some(unused) && w3.rows[i] == w.rows[i] && w3.rows[j].batch == batch;
    BothConfirm(settles, w3, i, j, batch);
    DangerBack(settles, w2, submit, batch);
    DangerBack(settles, w1, write, batch);
    DangerBack(settles, w, read, batch);
  }

  lemma StillFree(rows: seq<Attempt>, rows': seq<Attempt>, hash: string)
    requires !HashTaken(rows, hash) && |rows'| == |rows| + 1 && rows'[..|rows|] == rows && rows'[|rows|].hash == None
    ensures !HashTaken(rows', hash)
  {
    forall i | 0 <= i < |rows'| ensures rows'[i].hash != Some(hash) {
      if i < |rows| {
        assert rows'[i] == rows[i];
      }
    }
  }

  /** With ids free of colons the next number's key is free. */
  lemma NextKeyIsFree(rows: seq<Attempt>, batch: string)
    requires Keyed(rows) && NoColon(batch) && forall i :: 0 <= i < |rows| ==> NoColon(rows[i].batch)
    ensures !KeyTaken(rows, FundingKey(batch, NextNumber(rows, batch)))
  {
    hide FundingKey, NoColon;
    LatestIsHighest(rows, batch);
    var next := NextNumber(rows, batch);
    forall i | 0 <= i < |rows| ensures rows[i].key != FundingKey(batch, next) {
      if rows[i].key == FundingKey(batch, next) {
        KeysAreDistinct(rows[i].batch, rows[i].number, batch, next);
      }
    }
  }

  /** In a kept world a paid attempt is its batch's last. */
  lemma PaidIsLatest(settles: Ledger, w: World, i: nat)
    requires Kept(settles, w) && i < |w.rows| && Paid(settles, w.rows[i])
    ensures Latest(w.rows, w.rows[i].batch) == Some(i)
    ensures forall j :: 0 <= j < |w.rows| && j != i && w.rows[j].batch == w.rows[i].batch ==> Dead(w.rows[j])
  {
    hide FundingKey, Paid;
    var b := w.rows[i].batch;
    LatestIsHighest(w.rows, b);
    forall j | 0 <= j < |w.rows| && j != i && w.rows[j].batch == b ensures w.rows[j].number < w.rows[i].number {
      assert !Dead(w.rows[i]);
    }
  }

  /** Nobody can add to the batch any more, and only attempt `i` of it can have moved money. */
  ghost predicate Sealed(settles: Ledger, w: World, batch: string, i: nat) {
    && Recorded(settles, w)
    && i < |w.rows| && w.rows[i].batch == batch
    && !Reopenable(w, batch)
    && (forall t :: t in w.openers && w.openers[t].Decided? && w.openers[t].batch == batch ==> KeyTaken(w.rows, FundingKey(batch, w.openers[t].next)))
    && (forall j :: 0 <= j < |w.rows| && j != i && w.rows[j].batch == batch ==> Finished(w.rows[j].status) && !Paid(settles, w.rows[j]))
  }

  lemma KeyStaysTaken(w: World, e: Event, key: string)
    requires KeyTaken(w.rows, key)
    ensures KeyTaken(Happens(w, e).rows, key)
  {
    hide Blockers, Settling, Restate, PaymentsOf, FundingKey, Latest, HashTaken;
    var i :| 0 <= i < |w.rows| && w.rows[i].key == key;
    assert Happens(w, e).rows[i].key == key;
  }

  /** The payments of a batch never become clear again by the protocol's own writes. */
  lemma ClearOnlyBefore(w: World, e: Event, batch: string, f: Funder)
    requires !e.Edit?
    requires ClearFor(PaymentsOf(Happens(w, e).payments, batch), f)
    ensures ClearFor(PaymentsOf(w.payments, batch), f)
  {
    hide ClearFor, PaymentsOf, Restate, Link, Blockers, FundingKey, Latest, KeyTaken, HashTaken, Concluding, Inserted;
    match e {
      case OpenCommit(t) =>
        if t in w.openers && w.openers[t].Decided? {
          RestateKeepsClear(w.payments, w.openers[t].batch, DRAFT, VALIDATING, batch, f);
        }
      case FinishCommit(t) =>
        if t in w.finishers && w.finishers[t].row < |w.rows| {
          var moved := w.rows[w.finishers[t].row].batch;
          RestateKeepsClear(w.payments, moved, VALIDATING, DRAFT, batch, f);
          LinkBars(w.payments, moved, batch, f);
        }
      case _ =>
    }
  }

  lemma NotReopened(w: World, e: Event, batch: string)
    requires !e.Edit? && !Reopenable(w, batch)
    ensures !Reopenable(Happens(w, e), batch)
  {
    hide ClearFor, PaymentsOf, Restate, Link, Blockers, FundingKey, Latest, KeyTaken, HashTaken, Concluding, Inserted, Settling;
    var w' := Happens(w, e);
    forall f: Funder ensures !ClearFor(PaymentsOf(w'.payments, batch), f) {
      if ClearFor(PaymentsOf(w'.payments, batch), f) {
        ClearOnlyBefore(w, e, batch, f);
      }
    }
  }

  lemma EventSealed(settles: Ledger, w: World, e: Event, batch: string, i: nat)
    requires Sealed(settles, w, batch, i) && TruthfulEvent(settles, w, e) && !e.Edit?
    ensures Sealed(settles, Happens(w, e), batch, i)
  {
    hide Blockers, Settling, Restate, PaymentsOf, FundingKey, Latest, HashTaken, Reopenable, Recorded, TruthfulEvent;
    EventRecorded(settles, w, e);
    NotReopened(w, e, batch);
    var w' := Happens(w, e);
    forall t | t in w'.openers && w'.openers[t].Decided? && w'.openers[t].batch == batch
      ensures KeyTaken(w'.rows, FundingKey(batch, w'.openers[t].next))
    {
      if e.OpenRead? && e.ticket == t && t in w.openers && w.openers[t].Looked? {
        NoneDecides(w, t, e.f, batch);
      } else {
        KeyStaysTaken(w, e, FundingKey(batch, w.openers[t].next));
      }
    }
    forall j | 0 <= j < |w'.rows| && j != i && w'.rows[j].batch == batch
      ensures Finished(w'.rows[j].status) && !Paid(settles, w'.rows[j])
    {
      if j < |w.rows| {
        OtherStaysDown(w, e, j);
      }
    }
  }

  /** A finished attempt stays finished and is never submitted. */
  lemma OtherStaysDown(w: World, e: Event, j: nat)
    requires j < |w.rows| && Finished(w.rows[j].status)
    ensures j < |Happens(w, e).rows| && Finished(Happens(w, e).rows[j].status) && Happens(w, e).rows[j].hash == w.rows[j].hash
  {
    hide Blockers, Settling, Restate, PaymentsOf, FundingKey, Latest, HashTaken;
  }

  lemma NoneDecides(w: World, t: nat, f: Funder, batch: string)
    requires t in w.openers && w.openers[t].Looked? && w.openers[t].batch == batch && !Reopenable(w, batch)
    ensures t !in Happens(w, OpenRead(t, f)).openers
  {
    hide ClearFor, PaymentsOf, Blockers, Latest;
    AttemptBlocks(w.openers[t].payments, LatestStatus(w.rows, batch), f);
  }

  lemma {:induction false} RunSealed(settles: Ledger, w: World, events: seq<Event>, batch: string, i: nat)
    requires Sealed(settles, w, batch, i) && Truthful(settles, w, events) && FundingOnly(events)
    ensures Sealed(settles, After(w, events), batch, i)
  {
    hide Happens, Sealed, TruthfulEvent;
    if events != [] {
      var n := |events| - 1;
      assert events[n] in events;
      forall e | e in events[..n] ensures !e.Edit? { assert e in events; }
      RunSealed(settles, w, events[..n], batch, i);
      EventSealed(settles, After(w, events[..n]), events[n], batch, i);
    }
  }

  lemma SealedIsSafe(settles: Ledger, w: World, batch: string, i: nat)
    requires Sealed(settles, w, batch, i)
    ensures !Danger(settles, w, batch)
  {
    hide Sealed, After;
    forall more: seq<Event> | FundingOnly(more) && Truthful(settles, w, more)
      ensures !TwoConfirmed(After(w, more).rows, batch)
    {
      RunSealed(settles, w, more, batch, i);
      SealedHasOne(settles, After(w, more), batch, i);
    }
  }

  lemma SealedHasOne(settles: Ledger, w: World, batch: string, i: nat)
    requires Sealed(settles, w, batch, i)
    ensures !TwoConfirmed(w.rows, batch)
  {
    hide Paid, Reopenable;
  }

  lemma KeptIsSafe(settles: Ledger, w: World, batch: string)
    requires Kept(settles, w)
    ensures !Danger(settles, w, batch)
  {
    hide Kept, After;
    forall more: seq<Event> | Truthful(settles, w, more) && Guarded(settles, w, more)
      ensures !TwoConfirmed(After(w, more).rows, batch)
    {
      RunKept(settles, w, more);
      KeptHasOne(settles, After(w, more), batch);
    }
  }

  lemma KeptHasOne(settles: Ledger, w: World, batch: string)
    requires Kept(settles, w)
    ensures !TwoConfirmed(w.rows, batch)
  {
    hide Paid, Sound, Disciplined;
    if TwoConfirmed(w.rows, batch) {
      var i, j :| 0 <= i < j < |w.rows| && w.rows[i].batch == w.rows[j].batch == batch && w.rows[i].status == w.rows[j].status == CONFIRMED;
      assert Paid(settles, w.rows[i]) && Paid(settles, w.rows[j]);
      OnePaid(settles, w, i, j);
    }
  }

  /**
   * The exact moment the control is lost. Up to now every abandonment was guarded; one is about to be written. From then
   * on the protocol alone, with every later abandonment guarded again, can confirm two attempts of the batch if and only
   * if the abandoned attempt's recorded transaction settles and the batch's payments are clear for somebody, as they are
   * or as a pending opener saw them. This is about recorded attempts: an abandonment over an absent hash keeps the records
   * in order, and can still let the money move twice.
   */
  lemma StrayAbandonmentExactly(settles: Ledger, payments: seq<BatchPayment>, events: seq<Event>, t: nat, unused: string)
    requires Truthful(settles, Start(payments), events) && Guarded(settles, Start(payments), events)
    requires
      var w := After(Start(payments), events);
      && t in w.finishers && w.finishers[t].decision.Abandon?
      && settles(unused) && !HashTaken(w.rows, unused)
      && forall i :: 0 <= i < |w.rows| ==> NoColon(w.rows[i].batch)
    ensures
      var w := After(Start(payments), events);
      && w.finishers[t].row < |w.rows|
      && var a := w.rows[w.finishers[t].row];
      Danger(settles, Happens(w, FinishCommit(t)), a.batch) <==> Paid(settles, a) && Reopenable(w, a.batch)
  {
    hide After, Kept, Guarded, Truthful, Happens, Danger, Reopenable;
    var w := After(Start(payments), events);
    StartIsKept(settles, payments);
    RunKept(settles, Start(payments), events);
    FinisherInRange(settles, w, t);
    var a, w' := w.rows[w.finishers[t].row], Happens(w, FinishCommit(t));
    if !Paid(settles, a) {
      KeptEvent(settles, w, t);
      KeptIsSafe(settles, w', a.batch);
    } else if !Reopenable(w, a.batch) {
      AbandonedIsSealed(settles, w, t);
      SealedIsSafe(settles, w', a.batch, w.finishers[t].row);
    } else {
      AbandonedIsReopened(settles, w, t, unused);
    }
  }

  lemma FinisherInRange(settles: Ledger, w: World, t: nat)
    requires Kept(settles, w) && t in w.finishers
    ensures w.finishers[t].row < |w.rows|
  {
  }

  lemma KeptEvent(settles: Ledger, w: World, t: nat)
    requires Kept(settles, w) && t in w.finishers && w.finishers[t].row < |w.rows| && !Paid(settles, w.rows[w.finishers[t].row])
    ensures Kept(settles, Happens(w, FinishCommit(t)))
  {
    EventSound(w, FinishCommit(t));
    EventRecorded(settles, w, FinishCommit(t));
    EventDisciplined(settles, w, FinishCommit(t));
    hide Happens, Sound, Recorded, Disciplined;
  }

  lemma AbandonedIsSealed(settles: Ledger, w: World, t: nat)
    requires Kept(settles, w) && t in w.finishers && w.finishers[t].row < |w.rows| && w.finishers[t].decision.Abandon?
    requires Paid(settles, w.rows[w.finishers[t].row]) && !Reopenable(w, w.rows[w.finishers[t].row].batch)
    ensures Sealed(settles, Happens(w, FinishCommit(t)), w.rows[w.finishers[t].row].batch, w.finishers[t].row)
  {
    hide Paid, Restate, PaymentsOf, FundingKey, Latest, Reopenable, Settling;
    var i := w.finishers[t].row;
    var b := w.rows[i].batch;
    EventRecorded(settles, w, FinishCommit(t));
    NotReopened(w, FinishCommit(t), b);
    PaidIsLatest(settles, w, i);
    forall u | u in w.openers && w.openers[u].Decided? && w.openers[u].batch == b
      ensures KeyTaken(w.rows, FundingKey(b, w.openers[u].next))
    {
      DecidedTooEarly(settles, w, u, i);
    }
    forall u | u in w.openers && w.openers[u].Decided? && w.openers[u].batch == b
      ensures KeyTaken(Happens(w, FinishCommit(t)).rows, FundingKey(b, w.openers[u].next))
    {
      KeyStaysTaken(w, FinishCommit(t), FundingKey(b, w.openers[u].next));
    }
  }

  /** An opener that decided before a paid attempt was opened has lost its key to it. */
  lemma DecidedTooEarly(settles: Ledger, w: World, u: nat, i: nat)
    requires Kept(settles, w) && i < |w.rows| && Paid(settles, w.rows[i])
    requires u in w.openers && w.openers[u].Decided? && w.openers[u].batch == w.rows[i].batch
    ensures KeyTaken(w.rows, FundingKey(w.rows[i].batch, w.openers[u].next))
  {
    hide FundingKey, Paid;
    assert Preceded(w.rows, w.rows[i].batch, w.openers[u].next) && !Dead(w.rows[i]);
    assert StillTrue(w.rows, w.openers[u]);
    assert HasAttempt(w.rows, w.rows[i].batch, w.rows[i].number);
    EarlierIsTaken(w.rows, w.rows[i].batch, w.rows[i].number, w.openers[u].next);
  }

  lemma AbandonedIsReopened(settles: Ledger, w: World, t: nat, unused: string)
    requires Kept(settles, w) && t in w.finishers && w.finishers[t].row < |w.rows| && w.finishers[t].decision.Abandon?
    requires Paid(settles, w.rows[w.finishers[t].row]) && Reopenable(w, w.rows[w.finishers[t].row].batch)
    requires settles(unused) && !HashTaken(w.rows, unused) && forall i :: 0 <= i < |w.rows| ==> NoColon(w.rows[i].batch)
    ensures Danger(settles, Happens(w, FinishCommit(t)), w.rows[w.finishers[t].row].batch)
  {
    hide Restate, PaymentsOf, FundingKey, Danger, ClearFor, NoColon;
    var i, w' := w.finishers[t].row, Happens(w, FinishCommit(t));
    var b := w.rows[i].batch;
    AbandonedLeavesRoom(settles, w, t);
    assert !HashTaken(w'.rows, unused);
    NextKeyIsFree(w'.rows, b);
    if StaleLook(w, b) {
      var u, f: Funder :| u in w.openers && w.openers[u].Looked? && w.openers[u].batch == b && ClearFor(w.openers[u].payments, f);
      SecondAttempt(settles, w', i, u, f, b, unused);
    } else {
      var f: Funder :| ClearFor(PaymentsOf(w.payments, b), f);
      RestateKeepsClear(w.payments, b, VALIDATING, DRAFT, b, f);
      var u := FreshTicket(w'.openers.Keys);
      var look := OpenLook(u, b);
      SecondAttempt(settles, Happens(w', look), i, u, f, b, unused);
      DangerBack(settles, w', look, b);
    }
  }

  lemma AbandonedLeavesRoom(settles: Ledger, w: World, t: nat)
    requires Kept(settles, w) && t in w.finishers && w.finishers[t].row < |w.rows| && w.finishers[t].decision.Abandon?
    requires Paid(settles, w.rows[w.finishers[t].row])
    ensures
      var i, w' := w.finishers[t].row, Happens(w, FinishCommit(t));
      && Sound(w') && Keyed(w'.rows) && w'.openers == w.openers
      && |w'.rows| == |w.rows| && w'.rows == w.rows[i := w'.rows[i]]
      && w'.rows[i] == w.rows[i].(status := w'.rows[i].status) && Dead(w'.rows[i])
      && RoomForAnother(w'.rows, w.rows[i].batch)
  {
    hide Paid, Restate, PaymentsOf, FundingKey;
    EventSound(w, FinishCommit(t));
    var i, w' := w.finishers[t].row, Happens(w, FinishCommit(t));
    PaidIsLatest(settles, w, i);
    var b := w.rows[i].batch;
    assert forall j :: 0 <= j < |w'.rows| && w'.rows[j].batch == b ==> Dead(w'.rows[j]);
  }

  // ----- a linked batch -----

  ghost predicate SomeLinked(payments: seq<FundingPayment>) {
    exists i :: 0 <= i < |payments| && payments[i].slot.Some?
  }

  /** Some payment of the batch is linked to a slot, and no opener of it looked before that or has already decided. */
  ghost predicate Barred(w: World, batch: string) {
    && (exists i :: 0 <= i < |w.payments| && w.payments[i].batch == batch && w.payments[i].p.slot.Some?)
    && (forall t :: t in w.openers && w.openers[t].batch == batch ==> w.openers[t].Looked? && SomeLinked(w.openers[t].payments))
  }

  lemma {:induction false} LinkIsSeen(payments: seq<BatchPayment>, batch: string, i: nat)
    requires i < |payments| && payments[i].batch == batch && payments[i].p.slot.Some?
    ensures SomeLinked(PaymentsOf(payments, batch))
  {
    var n := |payments| - 1;
    var all, front := PaymentsOf(payments, batch), PaymentsOf(payments[..n], batch);
    if i < n {
      LinkIsSeen(payments[..n], batch, i);
      var j :| 0 <= j < |front| && front[j].slot.Some?;
      assert all[j] == front[j];
    } else {
      assert all[|front|] == payments[i].p;
    }
  }

  /** No write removes a link or moves a payment to another batch. */
  lemma LinksStay(w: World, e: Event, i: nat)
    requires i < |w.payments|
    ensures
      var payments := Happens(w, e).payments;
      && i < |payments| && payments[i].batch == w.payments[i].batch
      && (w.payments[i].p.slot.Some? ==> payments[i].p.slot.Some?)
  {
    hide Blockers, FundingKey, Latest, KeyTaken, HashTaken, Link, PaymentsOf, Concluding, Inserted;
    if e.FinishCommit? && e.ticket in w.finishers && w.finishers[e.ticket].row < |w.rows| {
      LinkAt(w.payments, w.rows[w.finishers[e.ticket].row].batch, i);
    }
  }

  lemma {:induction false} LinkAt(payments: seq<BatchPayment>, linked: string, i: nat)
    requires i < |payments|
    ensures
      var p, p' := payments[i], Link(payments, linked)[i];
      p'.batch == p.batch && (p.p.slot.Some? || p.batch == linked ==> p'.p.slot.Some?)
  {
    var n := |payments| - 1;
    if i < n {
      LinkAt(payments[..n], linked, i);
      assert Link(payments, linked)[i] == Link(payments[..n], linked)[i];
    }
  }

  lemma EventBarred(w: World, e: Event, batch: string)
    requires Barred(w, batch)
    ensures Barred(Happens(w, e), batch)
    ensures |w.rows| <= |Happens(w, e).rows|
    ensures forall i :: |w.rows| <= i < |Happens(w, e).rows| ==> Happens(w, e).rows[i].batch != batch
  {
    hide Blockers, FundingKey, Latest, KeyTaken, HashTaken, Link, Restate, PaymentsOf, Settling, SomeLinked;
    var w' := Happens(w, e);
    var i :| 0 <= i < |w.payments| && w.payments[i].batch == batch && w.payments[i].p.slot.Some?;
    LinksStay(w, e, i);
    LinkIsSeen(w.payments, batch, i);
    if e.OpenRead? && e.ticket in w.openers && w.openers[e.ticket].batch == batch {
      LookedIsBarred(w, e.ticket, e.f);
    }
  }

  lemma LookedIsBarred(w: World, t: nat, f: Funder)
    requires t in w.openers && w.openers[t].Looked? && SomeLinked(w.openers[t].payments)
    ensures t !in Happens(w, OpenRead(t, f)).openers
  {
    var o := w.openers[t];
    var i :| 0 <= i < |o.payments| && o.payments[i].slot.Some?;
    LinkedIsBarred(o.payments, i, f);
    AttemptBlocks(o.payments, LatestStatus(w.rows, o.batch), f);
    hide Blockers, Latest;
  }

  /**
   * Once a batch is linked and nobody is left in the middle of opening it, no interleaving whatever, with any writers and
   * any readings of the chain, opens another attempt of it. An opener that looked before the link still can.
   */
  lemma {:induction false} LinkedBarsNewAttempts(w: World, events: seq<Event>, batch: string)
    requires Barred(w, batch)
    ensures Barred(After(w, events), batch) && |w.rows| <= |After(w, events).rows|
    ensures forall i :: |w.rows| <= i < |After(w, events).rows| ==> After(w, events).rows[i].batch != batch
  {
    hide Happens, Barred;
    if events != [] {
      var mid := After(w, events[..|events| - 1]);
      LinkedBarsNewAttempts(w, events[..|events| - 1], batch);
      EventBarred(mid, events[|events| - 1], batch);
      forall i | |w.rows| <= i < |After(w, events).rows| ensures After(w, events).rows[i].batch != batch {
        if i < |mid.rows| {
          BatchStays(mid, events[|events| - 1], i);
        }
      }
    }
  }

  lemma BatchStays(w: World, e: Event, i: nat)
    requires i < |w.rows|
    ensures i < |Happens(w, e).rows| && Happens(w, e).rows[i].batch == w.rows[i].batch
  {
    hide Blockers, FundingKey, Latest, KeyTaken, HashTaken, Link, Restate, PaymentsOf, Settling;
  }

  predicate HasPayment(payments: seq<BatchPayment>, batch: string) {
    exists i :: 0 <= i < |payments| && payments[i].batch == batch
  }

  /** Whatever has an attempt, or an opener who may add one, has payments. */
  ghost predicate Peopled(w: World) {
    && (forall i :: 0 <= i < |w.rows| ==> HasPayment(w.payments, w.rows[i].batch))
    && (forall t :: t in w.openers && (w.openers[t].Looked? ==> w.openers[t].payments != []) ==> HasPayment(w.payments, w.openers[t].batch))
  }

  lemma PaymentsStay(w: World, e: Event, batch: string)
    requires HasPayment(w.payments, batch)
    ensures HasPayment(Happens(w, e).payments, batch)
  {
    hide Happens;
    var i :| 0 <= i < |w.payments| && w.payments[i].batch == batch;
    LinksStay(w, e, i);
  }

  lemma {:induction false} SomeOfBatch(payments: seq<BatchPayment>, batch: string)
    ensures PaymentsOf(payments, batch) != [] ==> HasPayment(payments, batch)
  {
    if payments != [] {
      var n := |payments| - 1;
      SomeOfBatch(payments[..n], batch);
      if payments[n].batch != batch && PaymentsOf(payments, batch) != [] {
        var i :| 0 <= i < n && payments[..n][i].batch == batch;
        assert payments[i].batch == batch;
      }
    }
  }

  lemma EventPeopled(w: World, e: Event)
    requires Peopled(w)
    ensures Peopled(Happens(w, e))
  {
    hide Blockers, FundingKey, Latest, KeyTaken, HashTaken, Link, Restate, PaymentsOf, Settling, HasPayment;
    forall batch | HasPayment(w.payments, batch) ensures HasPayment(Happens(w, e).payments, batch) {
      PaymentsStay(w, e, batch);
    }
    match e {
      case OpenLook(_, batch) => SomeOfBatch(w.payments, batch);
      case OpenRead(t, f) =>
        if t in w.openers && w.openers[t].Looked? {
          AttemptBlocks(w.openers[t].payments, LatestStatus(w.rows, w.openers[t].batch), f);
          EligibleExactly(Asked(w.openers[t].payments, None, f));
        }
      case _ =>
    }
  }

  lemma {:induction false} RunPeopled(w: World, events: seq<Event>)
    requires Peopled(w)
    ensures Peopled(After(w, events))
  {
    hide Happens, Peopled;
    if events != [] {
      RunPeopled(w, events[..|events| - 1]);
      EventPeopled(After(w, events[..|events| - 1]), events[|events| - 1]);
    }
  }

  /** Confirming links the batch's payments. */
  lemma ConfirmingBars(w: World, t: nat)
    requires Peopled(w) && t in w.finishers && w.finishers[t].row < |w.rows| && w.finishers[t].decision.Confirm?
    requires forall u :: u in w.openers ==> w.openers[u].batch != w.rows[w.finishers[t].row].batch
    ensures Barred(Happens(w, FinishCommit(t)), w.rows[w.finishers[t].row].batch)
  {
    var batch := w.rows[w.finishers[t].row].batch;
    var i :| 0 <= i < |w.payments| && w.payments[i].batch == batch;
    hide Link, PaymentsOf;
    LinkAt(w.payments, batch, i);
    assert Happens(w, FinishCommit(t)).payments[i].p.slot.Some?;
  }

  /**
   * In every interleaving, by whatever writers and whatever readings of the chain: a confirmation written while nobody is
   * in the middle of opening its batch is the end of opening it. However the run goes on, no later attempt is of that batch.
   */
  lemma ConfirmingEndsOpening(payments: seq<BatchPayment>, events: seq<Event>, t: nat, more: seq<Event>)
    requires
      var w := After(Start(payments), events);
      && t in w.finishers && w.finishers[t].decision.Confirm?
      && (w.finishers[t].row < |w.rows| ==> forall u :: u in w.openers ==> w.openers[u].batch != w.rows[w.finishers[t].row].batch)
    ensures
      var w := After(Start(payments), events);
      var w' := After(Happens(w, FinishCommit(t)), more);
      && w.finishers[t].row < |w.rows| <= |w'.rows|
      && forall i :: |w.rows| <= i < |w'.rows| ==> w'.rows[i].batch != w.rows[w.finishers[t].row].batch
  {
    hide After, Peopled, Barred;
    var w := After(Start(payments), events);
    EveryInterleaving(payments, events);
    EmptyPeopled(payments);
    RunPeopled(Start(payments), events);
    ConfirmingBars(w, t);
    LinkedBarsNewAttempts(Happens(w, FinishCommit(t)), more, w.rows[w.finishers[t].row].batch);
  }

  lemma EmptyPeopled(payments: seq<BatchPayment>)
    ensures Peopled(Start(payments))
  {
  }
}
