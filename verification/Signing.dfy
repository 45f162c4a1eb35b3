/**
 * Where the money moves: a funding transaction is signed in a browser, and the records learn of it afterwards. When of
 * each batch at most one signed transaction settles, in terms that can be checked before each step, and exactly when an
 * abandonment breaks it.
 */
module Signing {
  import opened Prelude
  import opened StateMachine
  import opened Eligibility
  import opened BatchPayments
  import opened Intents
  import opened DoubleFunding

  /** A signed transaction of the batch that the chain settles: an escrow created, the batch's money taken. */
  predicate Moves(settles: Ledger, w: World, s: Signature, batch: string) {
    s in w.signed && s.row < |w.rows| && w.rows[s.row].batch == batch && settles(s.hash)
  }

  /** Two different ones. */
  ghost predicate PaysTwice(settles: Ledger, w: World, batch: string) {
    exists a, b :: Moves(settles, w, a, batch) && Moves(settles, w, b, batch) && a.hash != b.hash
  }

  ghost predicate Unsigned(w: World, row: nat) {
    forall s :: s in w.signed ==> s.row != row
  }

  /** A transaction signed for this attempt settles. */
  ghost predicate Spent(settles: Ledger, w: World, row: nat) {
    exists s :: s in w.signed && s.row == row && settles(s.hash)
  }

  /** Nothing else has been signed for the attempt, and nothing else is recorded on it. */
  ghost predicate Agrees(w: World, row: nat, hash: string)
    requires row < |w.rows|
  {
    && (forall s :: s in w.signed && s.row == row ==> s.hash == hash)
    && (w.rows[row].hash.Some? ==> w.rows[row].hash.value == hash)
  }

  /**
   * One transaction per attempt: it is signed only while the attempt is in flight, it is the one recorded if any is, and
   * the attempt is abandoned only if nothing was signed for it.
   */
  ghost predicate SoleEvent(w: World, e: Event) {
    match e
    case Sign(row, hash) => row < |w.rows| ==> w.rows[row].status in IN_FLIGHT && Agrees(w, row, hash)
    case Submit(row, hash) => row < |w.rows| && w.rows[row].status in NOT_SUBMITTED ==> Agrees(w, row, hash)
    case FinishCommit(t) => t in w.finishers && w.finishers[t].decision.Abandon? ==> Unsigned(w, w.finishers[t].row)
    case _ => true
  }

  ghost predicate Sole(w: World, events: seq<Event>) {
    events == [] || (Sole(w, events[..|events| - 1]) && SoleEvent(After(w, events[..|events| - 1]), events[|events| - 1]))
  }

  // ----- what that keeps -----

  /** Over, and nothing signed for it settles. */
  ghost predicate Quiet(settles: Ledger, w: World, row: nat)
    requires row < |w.rows|
  {
    Finished(w.rows[row].status) && !Spent(settles, w, row)
  }

  ghost predicate QuietBefore(settles: Ledger, w: World, batch: string, next: nat) {
    forall i :: 0 <= i < |w.rows| && w.rows[i].batch == batch && w.rows[i].number < next ==> Quiet(settles, w, i)
  }

  /** One transaction per attempt, and only a batch's last attempt, or one still to be confirmed or denied, has spent. */
  ghost predicate Orderly(settles: Ledger, w: World) {
    && (forall s :: s in w.signed ==> s.row < |w.rows| && Agrees(w, s.row, s.hash))
    && (forall i :: 0 <= i < |w.rows| && Dead(w.rows[i]) ==> !Spent(settles, w, i))
    && (forall i, j :: 0 <= i < |w.rows| && 0 <= j < |w.rows| && w.rows[i].batch == w.rows[j].batch && w.rows[i].number < w.rows[j].number ==>
          Quiet(settles, w, i))
    && (forall t :: t in w.openers && w.openers[t].Decided? ==> QuietBefore(settles, w, w.openers[t].batch, w.openers[t].next))
  }

  lemma SignOrderly(settles: Ledger, w: World, row: nat, hash: string)
    requires Orderly(settles, w) && row < |w.rows| && w.rows[row].status in IN_FLIGHT && Agrees(w, row, hash)
    ensures Orderly(settles, Happens(w, Sign(row, hash)))
  {
    var w' := Happens(w, Sign(row, hash));
    forall i | 0 <= i < |w.rows| && i != row ensures Spent(settles, w', i) == Spent(settles, w, i) {
    }
    hide Spent;
    forall t | t in w'.openers && w'.openers[t].Decided? ensures QuietBefore(settles, w', w'.openers[t].batch, w'.openers[t].next) {
      assert QuietBefore(settles, w, w.openers[t].batch, w.openers[t].next);
    }
  }

  /** One attempt changed as the protocol changes it, with nothing newly signed. */
  lemma PutOrderly(settles: Ledger, w: World, w': World, row: nat, a: Attempt)
    requires Orderly(settles, w) && row < |w.rows| && w'.rows == w.rows[row := a] && w'.openers == w.openers && w'.signed == w.signed
    requires a.batch == w.rows[row].batch && a.number == w.rows[row].number
    requires Finished(w.rows[row].status) ==> Finished(a.status)
    requires Dead(a) ==> !Spent(settles, w, row)
    requires a.hash.Some? ==> forall s :: s in w.signed && s.row == row ==> s.hash == a.hash.value
    ensures Orderly(settles, w')
  {
    forall i ensures Spent(settles, w', i) == Spent(settles, w, i) {
    }
    hide Spent;
    forall t | t in w'.openers && w'.openers[t].Decided? ensures QuietBefore(settles, w', w'.openers[t].batch, w'.openers[t].next) {
      assert QuietBefore(settles, w, w.openers[t].batch, w.openers[t].next);
    }
  }

  lemma ReadOrderly(settles: Ledger, w: World, batch: string)
    requires Sound(w) && Orderly(settles, w) && RoomForAnother(w.rows, batch)
    ensures QuietBefore(settles, w, batch, NextNumber(w.rows, batch))
  {
    hide FundingKey, Spent;
    LatestIsHighest(w.rows, batch);
    var latest := Latest(w.rows, batch);
    forall i | 0 <= i < |w.rows| && w.rows[i].batch == batch && w.rows[i].number < NextNumber(w.rows, batch)
      ensures Quiet(settles, w, i)
    {
      if w.rows[i].number == w.rows[latest.value].number {
        assert i == latest.value;
      }
    }
  }

  /** One attempt added after all of its batch, each of them quiet. */
  lemma AddOrderly(settles: Ledger, w: World, w': World, a: Attempt)
    requires Orderly(settles, w) && w'.rows == w.rows + [a] && w'.signed == w.signed && !Dead(a)
    requires forall i :: 0 <= i < |w.rows| && w.rows[i].batch == a.batch ==> w.rows[i].number < a.number && Quiet(settles, w, i)
    requires forall t :: t in w'.openers ==> t in w.openers && w'.openers[t] == w.openers[t]
    requires forall t :: t in w'.openers && w'.openers[t].Decided? && w'.openers[t].batch == a.batch ==> w'.openers[t].next <= a.number
    ensures Orderly(settles, w')
  {
    hide Finished, Dead;
    NothingSignedYet(settles, w, |w.rows|);
    forall i ensures Spent(settles, w', i) == Spent(settles, w, i) {
    }
    hide Spent;
    forall s | s in w'.signed ensures s.row < |w'.rows| && Agrees(w', s.row, s.hash) {
      assert Agrees(w, s.row, s.hash) && w'.rows[s.row] == w.rows[s.row];
    }
    hide Agrees;
    forall t | t in w'.openers && w'.openers[t].Decided? ensures QuietBefore(settles, w', w'.openers[t].batch, w'.openers[t].next) {
      assert QuietBefore(settles, w, w.openers[t].batch, w.openers[t].next);
    }
  }

  /** What an opener has decided is still the very next number, if its key is free. */
  lemma NextAfterAll(w: World, t: nat, u: nat)
    requires Sound(w) && t in w.openers && w.openers[t].Decided? && !KeyTaken(w.rows, FundingKey(w.openers[t].batch, w.openers[t].next))
    requires u in w.openers && w.openers[u].Decided? && w.openers[u].batch == w.openers[t].batch
    ensures w.openers[u].next <= w.openers[t].next
  {
    hide FundingKey, KeyTaken;
    var q := w.openers[u];
    assert StillTrue(w.rows, q);
    if q.next > 1 {
      var i :| 0 <= i < |w.rows| && w.rows[i].batch == q.batch && w.rows[i].number == q.next - 1;
      InsertIsLast(w, t, i);
    } else {
      assert StillTrue(w.rows, w.openers[t]);
    }
  }

  lemma CommitOrderly(settles: Ledger, w: World, t: nat)
    requires Sound(w) && Orderly(settles, w) && t in w.openers && w.openers[t].Decided?
    ensures Orderly(settles, Happens(w, OpenCommit(t)))
  {
    hide FundingKey, KeyTaken, Restate, Orderly, Sound;
    var o, w' := w.openers[t], Happens(w, OpenCommit(t));
    if KeyTaken(w.rows, FundingKey(o.batch, o.next)) {
      FewerOpeners(settles, w, w');
    } else {
      forall i | 0 <= i < |w.rows| && w.rows[i].batch == o.batch ensures w.rows[i].number < o.next && Quiet(settles, w, i) {
        InsertIsLast(w, t, i);
        DecidedIsPreceded(settles, w, t);
      }
      forall u | u in w'.openers && w'.openers[u].Decided? && w'.openers[u].batch == o.batch ensures w'.openers[u].next <= o.next {
        NextAfterAll(w, t, u);
      }
      AddOrderly(settles, w, w', Attempt(o.batch, o.next, FundingKey(o.batch, o.next), AWAITING_SIGNATURE, None, None));
    }
  }

  lemma DecidedIsPreceded(settles: Ledger, w: World, t: nat)
    requires Orderly(settles, w) && t in w.openers && w.openers[t].Decided?
    ensures QuietBefore(settles, w, w.openers[t].batch, w.openers[t].next)
  {
    hide QuietBefore, Spent, Agrees, Quiet;
  }

  lemma FewerOpeners(settles: Ledger, w: World, w': World)
    requires Orderly(settles, w) && w'.rows == w.rows && w'.signed == w.signed
    requires forall t :: t in w'.openers && w'.openers[t].Decided? ==> t in w.openers && w'.openers[t] == w.openers[t]
    ensures Orderly(settles, w')
  {
    forall i ensures Spent(settles, w', i) == Spent(settles, w, i) {
    }
    hide Spent;
    forall t | t in w'.openers && w'.openers[t].Decided? ensures QuietBefore(settles, w', w'.openers[t].batch, w'.openers[t].next) {
      assert QuietBefore(settles, w, w.openers[t].batch, w.openers[t].next);
    }
  }

  lemma NothingSignedYet(settles: Ledger, w: World, row: nat)
    requires Orderly(settles, w) && row >= |w.rows|
    ensures Unsigned(w, row) && !Spent(settles, w, row)
  {
  }

  /** A decision written to its attempt; an abandonment only if nothing signed for the attempt settles. */
  lemma FinishOrderly(settles: Ledger, w: World, t: nat)
    requires Recorded(settles, w) && Orderly(settles, w) && t in w.finishers
    requires w.finishers[t].decision.Abandon? ==> !Spent(settles, w, w.finishers[t].row)
    ensures Orderly(settles, Happens(w, FinishCommit(t)))
  {
    hide Settling;
    var f := w.finishers[t];
    var a := Concluding(w.rows, f)[f.row];
    assert Backed(settles, w.rows[f.row], f.decision);
    PutOrderly(settles, w, Happens(w, FinishCommit(t)), f.row, a);
  }

  lemma DecidesOrderly(settles: Ledger, w: World, t: nat, f: Funder)
    requires Sound(w) && Orderly(settles, w) && t in w.openers && w.openers[t].Looked?
    ensures Orderly(settles, Happens(w, OpenRead(t, f)))
  {
    hide Blockers, PaymentsOf, FundingKey, Latest, Sound, Spent, Agrees, Quiet;
    var o, w' := w.openers[t], Happens(w, OpenRead(t, f));
    AttemptBlocks(o.payments, LatestStatus(w.rows, o.batch), f);
    if RoomForAnother(w.rows, o.batch) {
      ReadOrderly(settles, w, o.batch);
    }
    SameRows(settles, w, w');
    forall u | u in w'.openers && w'.openers[u].Decided? ensures QuietBefore(settles, w, w'.openers[u].batch, w'.openers[u].next) {
    }
  }

  lemma SameRows(settles: Ledger, w: World, w': World)
    requires w'.rows == w.rows && w'.signed == w.signed
    ensures forall i :: Spent(settles, w', i) == Spent(settles, w, i)
    ensures forall row, hash :: 0 <= row < |w.rows| ==> Agrees(w', row, hash) == Agrees(w, row, hash)
    ensures forall i :: 0 <= i < |w.rows| ==> Quiet(settles, w', i) == Quiet(settles, w, i)
    ensures forall batch, next :: QuietBefore(settles, w', batch, next) == QuietBefore(settles, w, batch, next)
  {
  }

  lemma EventOrderly(settles: Ledger, w: World, e: Event)
    requires Sound(w) && Recorded(settles, w) && Orderly(settles, w)
    requires TruthfulEvent(settles, w, e) && SoleEvent(w, e)
    ensures Orderly(settles, Happens(w, e))
  {
    hide Blockers, Settling, Restate, PaymentsOf, FundingKey, Latest, KeyTaken, HashTaken, Sound, Orderly, Recorded, Concluding;
    match e {
      case OpenRead(t, f) =>
        if t in w.openers && w.openers[t].Looked? {
          DecidesOrderly(settles, w, t, f);
        }
      case OpenCommit(t) =>
        if t in w.openers && w.openers[t].Decided? {
          CommitOrderly(settles, w, t);
        }
      case Sign(row, hash) =>
        if row < |w.rows| {
          SignOrderly(settles, w, row, hash);
        }
      case Submit(row, hash) =>
        if Happens(w, e).rows != w.rows {
          PutOrderly(settles, w, Happens(w, e), row, w.rows[row].(status := SUBMITTED, hash := Some(hash)));
        } else {
          FewerOpeners(settles, w, Happens(w, e));
        }
      case FinishCommit(t) =>
        if t in w.finishers {
          FinishOrderly(settles, w, t);
        }
      case _ => FewerOpeners(settles, w, Happens(w, e));
    }
  }

  // ----- the control -----

  /** What truthful readers and one transaction per attempt keep. */
  ghost predicate InOrder(settles: Ledger, w: World) {
    Sound(w) && Recorded(settles, w) && Orderly(settles, w)
  }

  lemma {:induction false} RunInOrder(settles: Ledger, w: World, events: seq<Event>)
    requires InOrder(settles, w) && Truthful(settles, w, events) && Sole(w, events)
    ensures InOrder(settles, After(w, events))
  {
    hide Happens, Sound, Recorded, Orderly, TruthfulEvent, SoleEvent;
    if events != [] {
      var mid := After(w, events[..|events| - 1]);
      RunInOrder(settles, w, events[..|events| - 1]);
      EventSound(mid, events[|events| - 1]);
      EventRecorded(settles, mid, events[|events| - 1]);
      EventOrderly(settles, mid, events[|events| - 1]);
    }
  }

  lemma StartsInOrder(settles: Ledger, payments: seq<BatchPayment>)
    ensures InOrder(settles, Start(payments))
  {
  }

  lemma InOrderPaysOnce(settles: Ledger, w: World, batch: string)
    requires InOrder(settles, w)
    ensures !PaysTwice(settles, w, batch)
  {
    hide FundingKey;
    if PaysTwice(settles, w, batch) {
      var a, b :| Moves(settles, w, a, batch) && Moves(settles, w, b, batch) && a.hash != b.hash;
      assert Agrees(w, a.row, a.hash) && Agrees(w, b.row, b.hash);
      assert Spent(settles, w, a.row) && Spent(settles, w, b.row);
      OneSpent(settles, w, a.row, b.row);
    }
  }

  lemma OneSpent(settles: Ledger, w: World, i: nat, j: nat)
    requires InOrder(settles, w) && Siblings(w.rows, i, j) && Spent(settles, w, i) && Spent(settles, w, j)
    ensures i == j
  {
    hide FundingKey, Spent, Agrees;
  }

  /**
   * In every interleaving of openers, signers, submitters, abandoners, confirmers, the reconciler and other writers, with
   * truthful readers: if each attempt has one transaction, signed while the attempt is in flight, and is abandoned only
   * when nothing was signed for it, then of each batch at most one signed transaction settles.
   */
  lemma OneMovePerBatch(settles: Ledger, payments: seq<BatchPayment>, events: seq<Event>, batch: string)
    requires Truthful(settles, Start(payments), events) && Sole(Start(payments), events)
    ensures !PaysTwice(settles, After(Start(payments), events), batch)
  {
    hide After, InOrder, Truthful, Sole, PaysTwice;
    StartsInOrder(settles, payments);
    RunInOrder(settles, Start(payments), events);
    InOrderPaysOnce(settles, After(Start(payments), events), batch);
  }

  // ----- the same, readable from the attempt's own record -----

  /** Record first: a transaction is sent only once its attempt records it, and only an attempt that records none is abandoned. */
  predicate RecordsFirst(w: World, e: Event) {
    match e
    case Sign(row, hash) => row < |w.rows| ==> w.rows[row].status == SUBMITTED && w.rows[row].hash == Some(hash)
    case FinishCommit(t) =>
      t in w.finishers && w.finishers[t].decision.Abandon? && w.finishers[t].row < |w.rows| ==> w.rows[w.finishers[t].row].hash == None
    case _ => true
  }

  predicate RecordedFirst(w: World, events: seq<Event>) {
    events == [] || (RecordedFirst(w, events[..|events| - 1]) && RecordsFirst(After(w, events[..|events| - 1]), events[|events| - 1]))
  }

  /** Every signed transaction is the one its attempt records. */
  ghost predicate AllRecorded(w: World) {
    forall s :: s in w.signed ==> s.row < |w.rows| && w.rows[s.row].hash == Some(s.hash)
  }

  lemma RecordsFirstIsSole(settles: Ledger, w: World, e: Event)
    requires Recorded(settles, w) && AllRecorded(w) && RecordsFirst(w, e)
    ensures SoleEvent(w, e) && AllRecorded(Happens(w, e))
  {
    hide Blockers, Settling, Restate, PaymentsOf, FundingKey, Latest, KeyTaken, HashTaken;
  }

  lemma {:induction false} RunAllRecorded(settles: Ledger, w: World, events: seq<Event>)
    requires Recorded(settles, w) && AllRecorded(w) && Truthful(settles, w, events) && RecordedFirst(w, events)
    ensures Recorded(settles, After(w, events)) && AllRecorded(After(w, events)) && Sole(w, events)
  {
    hide Happens, Recorded, AllRecorded, TruthfulEvent, RecordsFirst, SoleEvent;
    if events != [] {
      var mid := After(w, events[..|events| - 1]);
      RunAllRecorded(settles, w, events[..|events| - 1]);
      RecordsFirstIsSole(settles, mid, events[|events| - 1]);
      EventRecorded(settles, mid, events[|events| - 1]);
    }
  }

  /**
   * A condition on the attempt's own row, checkable before each step, that is enough: a transaction is sent only when the
   * attempt is SUBMITTED with its hash, that is, after winning the guarded update out of the unsubmitted statuses, and an
   * abandonment is written only where no hash is.
   */
  lemma RecordingFirstSuffices(settles: Ledger, payments: seq<BatchPayment>, events: seq<Event>, batch: string)
    requires Truthful(settles, Start(payments), events) && RecordedFirst(Start(payments), events)
    ensures !PaysTwice(settles, After(Start(payments), events), batch)
  {
    hide After, Truthful, Sole, PaysTwice, RecordedFirst;
    StartsInOrder(settles, payments);
    RunAllRecorded(settles, Start(payments), events);
    OneMovePerBatch(settles, payments, events, batch);
  }

  // ----- the abandonment that breaks it, exactly -----

  /** The protocol alone, in order again from here on, can move the batch's money twice. */
  ghost predicate CanPayTwice(settles: Ledger, w: World, batch: string) {
    exists more: seq<Event> ::
      FundingOnly(more) && Truthful(settles, w, more) && Sole(w, more) && PaysTwice(settles, After(w, more), batch)
  }

  lemma {:induction false} SolePrepended(settles: Ledger, w: World, e: Event, more: seq<Event>)
    requires TruthfulEvent(settles, w, e) && SoleEvent(w, e)
    requires Truthful(settles, Happens(w, e), more) && Sole(Happens(w, e), more)
    ensures After(w, [e] + more) == After(Happens(w, e), more)
    ensures Truthful(settles, w, [e] + more) && Sole(w, [e] + more)
  {
    hide Happens, TruthfulEvent, SoleEvent;
    var all := [e] + more;
    if more == [] {
      assert all == [e] && all[..0] == [];
      assert After(w, all[..0]) == w && Truthful(settles, w, all[..0]) && Sole(w, all[..0]);
    } else {
      assert all[..|all| - 1] == [e] + more[..|more| - 1];
      SolePrepended(settles, w, e, more[..|more| - 1]);
    }
  }

  lemma CanPayTwiceBack(settles: Ledger, w: World, e: Event, batch: string)
    requires TruthfulEvent(settles, w, e) && SoleEvent(w, e) && !e.Edit?
    requires CanPayTwice(settles, Happens(w, e), batch)
    ensures CanPayTwice(settles, w, batch)
  {
    hide Happens, TruthfulEvent, SoleEvent, PaysTwice;
    var more: seq<Event> :| FundingOnly(more) && Truthful(settles, Happens(w, e), more) && Sole(Happens(w, e), more)
                            && PaysTwice(settles, After(Happens(w, e), more), batch);
    SolePrepended(settles, w, e, more);
    assert FundingOnly([e] + more);
  }

  lemma PaysTwiceNow(settles: Ledger, w: World, batch: string)
    requires PaysTwice(settles, w, batch)
    ensures CanPayTwice(settles, w, batch)
  {
    hide PaysTwice;
    var none: seq<Event> := [];
    assert FundingOnly(none) && Truthful(settles, w, none) && Sole(w, none) && After(w, none) == w;
  }

  lemma InOrderCannotPayTwice(settles: Ledger, w: World, batch: string)
    requires InOrder(settles, w)
    ensures !CanPayTwice(settles, w, batch)
  {
    hide InOrder, After, PaysTwice;
    forall more: seq<Event> | Truthful(settles, w, more) && Sole(w, more)
      ensures !PaysTwice(settles, After(w, more), batch)
    {
      RunInOrder(settles, w, more);
      InOrderPaysOnce(settles, After(w, more), batch);
    }
  }

  /** Every attempt of the batch is over, nobody can add one, and what was signed for it that settles is one transaction. */
  ghost predicate Shut(settles: Ledger, w: World, batch: string, hash: string) {
    && !Reopenable(w, batch)
    && (forall t :: t in w.openers && w.openers[t].Decided? && w.openers[t].batch == batch ==> KeyTaken(w.rows, FundingKey(batch, w.openers[t].next)))
    && (forall i :: 0 <= i < |w.rows| && w.rows[i].batch == batch ==> Finished(w.rows[i].status))
    && (forall s :: s in w.signed ==> s.row < |w.rows|)
    && (forall s :: s in w.signed && w.rows[s.row].batch == batch && settles(s.hash) ==> s.hash == hash)
  }

  lemma EventShut(settles: Ledger, w: World, e: Event, batch: string, hash: string)
    requires Shut(settles, w, batch, hash) && SoleEvent(w, e) && !e.Edit?
    ensures Shut(settles, Happens(w, e), batch, hash)
  {
    hide Blockers, Settling, Restate, PaymentsOf, FundingKey, Latest, HashTaken, Reopenable, Agrees, Unsigned;
    NotReopened(w, e, batch);
    var w' := Happens(w, e);
    forall t | t in w'.openers && w'.openers[t].Decided? && w'.openers[t].batch == batch
      ensures KeyTaken(w'.rows, FundingKey(batch, w'.openers[t].next))
    {
      if e.OpenRead? && e.ticket == t && t in w.openers && w.openers[t].Looked? {
        NoneDecides(w, t, e.f, batch);
      } else {
        KeyStaysTaken(w, e, FundingKey(batch, w.openers[t].next));
      }
    }
    forall i | 0 <= i < |w.rows|
      ensures i < |w'.rows| && w'.rows[i].batch == w.rows[i].batch && (Finished(w.rows[i].status) ==> Finished(w'.rows[i].status))
    {
      BatchStays(w, e, i);
      if Finished(w.rows[i].status) {
        OtherStaysDown(w, e, i);
      }
    }
  }

  lemma {:induction false} RunShut(settles: Ledger, w: World, events: seq<Event>, batch: string, hash: string)
    requires Shut(settles, w, batch, hash) && Sole(w, events) && FundingOnly(events)
    ensures Shut(settles, After(w, events), batch, hash)
  {
    hide Happens, Shut, SoleEvent;
    if events != [] {
      var n := |events| - 1;
      assert events[n] in events;
      forall e | e in events[..n] ensures !e.Edit? { assert e in events; }
      RunShut(settles, w, events[..n], batch, hash);
      EventShut(settles, After(w, events[..n]), events[n], batch, hash);
    }
  }

  lemma ShutCannotPayTwice(settles: Ledger, w: World, batch: string, hash: string)
    requires Shut(settles, w, batch, hash)
    ensures !CanPayTwice(settles, w, batch)
  {
    hide After, Shut;
    forall more: seq<Event> | FundingOnly(more) && Sole(w, more)
      ensures !PaysTwice(settles, After(w, more), batch)
    {
      RunShut(settles, w, more, batch, hash);
      ShutPaysOnce(settles, After(w, more), batch, hash);
    }
  }

  lemma ShutPaysOnce(settles: Ledger, w: World, batch: string, hash: string)
    requires Shut(settles, w, batch, hash)
    ensures !PaysTwice(settles, w, batch)
  {
    hide Reopenable;
  }

  /** In order, an attempt that has spent is its batch's last. */
  lemma SpentIsLatest(settles: Ledger, w: World, i: nat)
    requires InOrder(settles, w) && i < |w.rows| && Spent(settles, w, i)
    ensures Latest(w.rows, w.rows[i].batch) == Some(i)
    ensures forall j :: 0 <= j < |w.rows| && j != i && w.rows[j].batch == w.rows[i].batch ==> Quiet(settles, w, j)
    ensures forall u :: u in w.openers && w.openers[u].Decided? && w.openers[u].batch == w.rows[i].batch ==> w.openers[u].next <= w.rows[i].number
  {
    hide FundingKey, Spent, Agrees;
    LatestIsHighest(w.rows, w.rows[i].batch);
    forall j | 0 <= j < |w.rows| && j != i && w.rows[j].batch == w.rows[i].batch ensures w.rows[j].number < w.rows[i].number {
      assert !Quiet(settles, w, i);
    }
    forall u | u in w.openers && w.openers[u].Decided? && w.openers[u].batch == w.rows[i].batch ensures w.openers[u].next <= w.rows[i].number {
      assert QuietBefore(settles, w, w.rows[i].batch, w.openers[u].next) && !Quiet(settles, w, i);
    }
  }

  lemma AbandonedIsShut(settles: Ledger, w: World, t: nat, s: Signature)
    requires InOrder(settles, w) && t in w.finishers && w.finishers[t].row < |w.rows| && w.finishers[t].decision.Abandon?
    requires s in w.signed && s.row == w.finishers[t].row && settles(s.hash) && !Reopenable(w, w.rows[s.row].batch)
    ensures Shut(settles, Happens(w, FinishCommit(t)), w.rows[s.row].batch, s.hash)
  {
    hide Restate, PaymentsOf, FundingKey, Latest, Reopenable, Settling, Recorded;
    var b, w' := w.rows[s.row].batch, Happens(w, FinishCommit(t));
    assert Spent(settles, w, s.row);
    SpentIsLatest(settles, w, s.row);
    NotReopened(w, FinishCommit(t), b);
    forall u | u in w.openers && w.openers[u].Decided? && w.openers[u].batch == b
      ensures KeyTaken(w'.rows, FundingKey(b, w.openers[u].next))
    {
      assert StillTrue(w.rows, w.openers[u]) && HasAttempt(w.rows, b, w.rows[s.row].number);
      EarlierIsTaken(w.rows, b, w.rows[s.row].number, w.openers[u].next);
      KeyStaysTaken(w, FinishCommit(t), FundingKey(b, w.openers[u].next));
    }
    forall z | z in w.signed && w.rows[z.row].batch == b && settles(z.hash) ensures z.hash == s.hash {
      assert Spent(settles, w, z.row) && Agrees(w, z.row, z.hash);
    }
  }

  /** A look that was clear becomes a second attempt, and its transaction is signed. */
  lemma SecondMove(settles: Ledger, w: World, s: Signature, t: nat, f: Funder, unused: string)
    requires s in w.signed && s.row < |w.rows| && settles(s.hash) && forall z :: z in w.signed ==> z.row < |w.rows| && z.hash != unused
    requires
      var batch := w.rows[s.row].batch;
      && t in w.openers && w.openers[t].Looked? && w.openers[t].batch == batch && ClearFor(w.openers[t].payments, f)
      && RoomForAnother(w.rows, batch) && !KeyTaken(w.rows, FundingKey(batch, NextNumber(w.rows, batch)))
    requires settles(unused)
    ensures CanPayTwice(settles, w, w.rows[s.row].batch)
  {
    hide CanPayTwice, Blockers, FundingKey, Restate, Latest, LatestStatus, KeyTaken, NextNumber;
    var batch := w.rows[s.row].batch;
    AttemptBlocks(w.openers[t].payments, LatestStatus(w.rows, batch), f);
    assert Blockers(Asked(w.openers[t].payments, LatestStatus(w.rows, batch), f)) == [] by {
      assert RoomForAnother(w.rows, batch);
    }
    var j := |w.rows|;
    var read, write, sign := OpenRead(t, f), OpenCommit(t), Sign(j, unused);
    var w1 := Happens(w, read);
    var w2 := Happens(w1, write);
    assert w2.rows[..j] == w.rows && w2.rows[j].status == AWAITING_SIGNATURE && w2.rows[j].batch == batch && w2.signed == w.signed;
    var w3 := Happens(w2, sign);
    assert Moves(settles, w3, s, batch) && Moves(settles, w3, Signature(j, unused), batch);
    PaysTwiceNow(settles, w3, batch);
    CanPayTwiceBack(settles, w2, sign, batch);
    CanPayTwiceBack(settles, w1, write, batch);
    CanPayTwiceBack(settles, w, read, batch);
  }

  lemma AbandonedPaysTwice(settles: Ledger, w: World, t: nat, s: Signature, unused: string)
    requires InOrder(settles, w) && t in w.finishers && w.finishers[t].row < |w.rows| && w.finishers[t].decision.Abandon?
    requires s in w.signed && s.row == w.finishers[t].row && settles(s.hash) && Reopenable(w, w.rows[s.row].batch)
    requires settles(unused) && (forall z :: z in w.signed ==> z.hash != unused) && forall i :: 0 <= i < |w.rows| ==> NoColon(w.rows[i].batch)
    ensures CanPayTwice(settles, Happens(w, FinishCommit(t)), w.rows[s.row].batch)
  {
    hide Restate, PaymentsOf, FundingKey, CanPayTwice, ClearFor, NoColon, Settling, Orderly;
    var i, w' := s.row, Happens(w, FinishCommit(t));
    var b := w.rows[i].batch;
    AllSignedExist(settles, w);
    LeavesRoom(settles, w, t);
    NextKeyIsFree(w'.rows, b);
    if StaleLook(w, b) {
      var u, f: Funder :| u in w.openers && w.openers[u].Looked? && w.openers[u].batch == b && ClearFor(w.openers[u].payments, f);
      SecondMove(settles, w', s, u, f, unused);
    } else {
      var f: Funder :| ClearFor(PaymentsOf(w.payments, b), f);
      AbandonKeepsClear(w, t, b, f);
      var u := FreshTicket(w'.openers.Keys);
      var look := OpenLook(u, b);
      SecondMove(settles, Happens(w', look), s, u, f, unused);
      CanPayTwiceBack(settles, w', look, b);
    }
  }

  lemma AllSignedExist(settles: Ledger, w: World)
    requires InOrder(settles, w)
    ensures forall z :: z in w.signed ==> z.row < |w.rows|
  {
  }

  lemma AbandonKeepsClear(w: World, t: nat, batch: string, f: Funder)
    requires t in w.finishers && w.finishers[t].row < |w.rows| && w.finishers[t].decision.Abandon?
    requires ClearFor(PaymentsOf(w.payments, batch), f)
    ensures ClearFor(PaymentsOf(Happens(w, FinishCommit(t)).payments, batch), f)
  {
    hide ClearFor, PaymentsOf, Restate;
    RestateKeepsClear(w.payments, w.rows[w.finishers[t].row].batch, VALIDATING, DRAFT, batch, f);
  }

  lemma LeavesRoom(settles: Ledger, w: World, t: nat)
    requires InOrder(settles, w) && t in w.finishers && w.finishers[t].row < |w.rows| && w.finishers[t].decision.Abandon?
    requires Spent(settles, w, w.finishers[t].row)
    ensures
      var i, w' := w.finishers[t].row, Happens(w, FinishCommit(t));
      && Keyed(w'.rows) && w'.openers == w.openers && w'.signed == w.signed && |w'.rows| == |w.rows|
      && (forall j :: 0 <= j < |w.rows| ==> w'.rows[j].batch == w.rows[j].batch)
      && RoomForAnother(w'.rows, w.rows[i].batch)
  {
    hide Restate, PaymentsOf, FundingKey, Settling, Spent, Agrees;
    EventSound(w, FinishCommit(t));
    var i, w' := w.finishers[t].row, Happens(w, FinishCommit(t));
    SpentIsLatest(settles, w, i);
    LatestUnmoved(w.rows, w'.rows, w.rows[i].batch);
  }

  /** Which attempt is the latest does not depend on statuses. */
  lemma {:induction false} LatestUnmoved(rows: seq<Attempt>, rows': seq<Attempt>, batch: string)
    requires |rows'| == |rows| && forall j :: 0 <= j < |rows| ==> rows'[j].batch == rows[j].batch && rows'[j].number == rows[j].number
    ensures Latest(rows', batch) == Latest(rows, batch)
  {
    if rows != [] {
      LatestUnmoved(rows[..|rows| - 1], rows'[..|rows| - 1], batch);
    }
  }

  /**
   * Up to now every attempt had one transaction and no abandonment fell on a signed one; an abandonment is about to be
   * written. From then on the protocol alone, in order again, can move the batch's money twice if and only if a
   * transaction signed for the abandoned attempt settles, recorded or not, and the batch's payments are clear for somebody,
   * as they are or as a pending opener saw them.
   */
  lemma AbandonmentExactly(settles: Ledger, payments: seq<BatchPayment>, events: seq<Event>, t: nat, unused: string)
    requires Truthful(settles, Start(payments), events) && Sole(Start(payments), events)
    requires
      var w := After(Start(payments), events);
      && t in w.finishers && w.finishers[t].decision.Abandon?
      && settles(unused) && (forall s :: s in w.signed ==> s.hash != unused)
      && forall i :: 0 <= i < |w.rows| ==> NoColon(w.rows[i].batch)
    ensures
      var w := After(Start(payments), events);
      && w.finishers[t].row < |w.rows|
      && var batch := w.rows[w.finishers[t].row].batch;
      CanPayTwice(settles, Happens(w, FinishCommit(t)), batch) <==> Spent(settles, w, w.finishers[t].row) && Reopenable(w, batch)
  {
    hide After, InOrder, Truthful, Sole, Happens, CanPayTwice, Reopenable;
    var w := After(Start(payments), events);
    StartsInOrder(settles, payments);
    RunInOrder(settles, Start(payments), events);
    FinishesInOrder(settles, w, t);
    var i := w.finishers[t].row;
    if !Spent(settles, w, i) {
      InOrderCannotPayTwice(settles, Happens(w, FinishCommit(t)), w.rows[i].batch);
    } else {
      var s :| s in w.signed && s.row == i && settles(s.hash);
      if Reopenable(w, w.rows[i].batch) {
        AbandonedPaysTwice(settles, w, t, s, unused);
      } else {
        AbandonedIsShut(settles, w, t, s);
        ShutCannotPayTwice(settles, Happens(w, FinishCommit(t)), w.rows[i].batch, s.hash);
      }
    }
  }

  lemma FinishesInOrder(settles: Ledger, w: World, t: nat)
    requires InOrder(settles, w) && t in w.finishers
    ensures w.finishers[t].row < |w.rows|
    ensures w.finishers[t].decision.Abandon? && !Spent(settles, w, w.finishers[t].row) ==> InOrder(settles, Happens(w, FinishCommit(t)))
  {
    hide Happens, Spent, Orderly;
    EventSound(w, FinishCommit(t));
    EventRecorded(settles, w, FinishCommit(t));
    if w.finishers[t].decision.Abandon? && !Spent(settles, w, w.finishers[t].row) {
      FinishOrderly(settles, w, t);
    }
  }
}
