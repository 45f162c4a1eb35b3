/**
 * The database as its flat tables, and the picture of each escrow that the tables hold between them.
 */
module Tables {
  import opened Prelude
  import opened StateMachine
  import opened Projection

  type PaymentTable = map<(nat, nat), PaymentRow>

  /** A payment is keyed by its escrow and slot; findings and audit rows are tables in insertion order. */
  datatype Db = Db(
    escrows: map<nat, EscrowRow>,
    batches: set<(string, nat)>,
    payments: PaymentTable,
    workers: set<(string, Address)>,
    findings: seq<Finding>,
    audits: seq<Audit>,
    events: map<Token, Mark>)

  function PaymentsOf(payments: PaymentTable, id: nat): PaymentRows {
    map k | k in payments && k.0 == id :: k.1 := payments[k]
  }

  function FindingsOf(findings: seq<Finding>, id: nat): multiset<Finding> {
    if findings == [] then multiset{}
    else
      var last := findings[|findings| - 1];
      FindingsOf(findings[..|findings| - 1], id) + if last.escrow == id then multiset{last} else multiset{}
  }

  function AuditsOf(audits: seq<Audit>, id: nat): multiset<Audit> {
    if audits == [] then multiset{}
    else
      var last := audits[|audits| - 1];
      AuditsOf(audits[..|audits| - 1], id) + if last.escrow == id then multiset{last} else multiset{}
  }

  function ViewOf(db: Db, id: nat): View
    requires id in db.escrows
  {
    View(db.escrows[id], (db.escrows[id].org, id) in db.batches, PaymentsOf(db.payments, id),
         FindingsOf(db.findings, id), AuditsOf(db.audits, id))
  }

  function StoreOf(db: Db): Store {
    Store(map id | id in db.escrows :: ViewOf(db, id), db.workers, db.events)
  }

  /** From `a` to `b`, only the picture of escrow `id` changed, and it is now `v`. */
  ghost predicate Only(a: Db, b: Db, id: nat, v: View) {
    && id in a.escrows && b.escrows.Keys == a.escrows.Keys
    && b.workers == a.workers && b.events == a.events
    && ViewOf(b, id) == v
    && forall j :: j in a.escrows && j != id ==> ViewOf(b, j) == ViewOf(a, j)
  }

  lemma OnlyStore(a: Db, b: Db, id: nat, v: View)
    requires Only(a, b, id, v)
    ensures StoreOf(b) == StoreOf(a).(views := StoreOf(a).views[id := v])
  {
    hide ViewOf;
    assert StoreOf(b).views == StoreOf(a).views[id := v];
  }

  lemma OnlyThen(a: Db, b: Db, c: Db, id: nat, v: View, w: View)
    requires Only(a, b, id, v) && Only(b, c, id, w)
    ensures Only(a, c, id, w)
  {
    hide ViewOf;
  }

  lemma OnlyNothing(a: Db, id: nat)
    requires id in a.escrows
    ensures Only(a, a, id, ViewOf(a, id))
  {
  }

  // ----- one row at a time -----

  lemma PaymentsAt(payments: PaymentTable, id: nat)
    ensures forall i :: i in PaymentsOf(payments, id) <==> (id, i) in payments
    ensures forall i :: (id, i) in payments ==> PaymentsOf(payments, id)[i] == payments[(id, i)]
  {
  }

  lemma PutPaymentAt(payments: PaymentTable, id: nat, slot: nat, row: PaymentRow, j: nat)
    ensures
      PaymentsOf(payments[(id, slot) := row], j)
      == if j == id then PaymentsOf(payments, id)[slot := row] else PaymentsOf(payments, j)
  {
    hide PaymentsOf;
    PaymentsAt(payments[(id, slot) := row], j);
    PaymentsAt(payments, j);
  }

  lemma UpdateManyAt(payments: PaymentTable, id: nat, from: set<PaymentState>, to: PaymentState, j: nat)
    ensures
      PaymentsOf(UpdateMany(payments, id, from, to), j)
      == if j == id then Restated(PaymentsOf(payments, id), from, to) else PaymentsOf(payments, j)
  {
    hide PaymentsOf;
    PaymentsAt(UpdateMany(payments, id, from, to), j);
    PaymentsAt(payments, j);
  }

  lemma PutPayment(db: Db, id: nat, slot: nat, row: PaymentRow)
    requires id in db.escrows
    ensures
      var v := ViewOf(db, id);
      Only(db, db.(payments := db.payments[(id, slot) := row]), id, v.(payments := v.payments[slot := row]))
  {
    hide PaymentsOf;
    forall j: nat {
      PutPaymentAt(db.payments, id, slot, row, j);
    }
  }

  lemma PutEscrow(db: Db, id: nat, row: EscrowRow)
    requires id in db.escrows && row.org == db.escrows[id].org
    ensures Only(db, db.(escrows := db.escrows[id := row]), id, ViewOf(db, id).(escrow := row))
  {
  }

  lemma AddBatch(db: Db, id: nat)
    requires id in db.escrows
    ensures Only(db, db.(batches := db.batches + {(db.escrows[id].org, id)}), id, ViewOf(db, id).(batch := true))
  {
  }

  lemma AddFinding(db: Db, f: Finding)
    requires f.escrow in db.escrows
    ensures Only(db, db.(findings := db.findings + [f]), f.escrow, Found(ViewOf(db, f.escrow), f))
  {
    assert (db.findings + [f])[..|db.findings|] == db.findings;
  }

  lemma AddAudit(db: Db, a: Audit)
    requires a.escrow in db.escrows
    ensures
      var v := ViewOf(db, a.escrow);
      Only(db, db.(audits := db.audits + [a]), a.escrow, v.(audits := v.audits + multiset{a}))
  {
    assert (db.audits + [a])[..|db.audits|] == db.audits;
  }

  /** The statement that rewrites one escrow's payments by their state. */
  function UpdateMany(payments: PaymentTable, id: nat, from: set<PaymentState>, to: PaymentState): PaymentTable {
    map k | k in payments ::
      if k.0 == id && payments[k].state in from then payments[k].(state := to) else payments[k]
  }

  lemma UpdatedMany(db: Db, id: nat, from: set<PaymentState>, to: PaymentState)
    requires id in db.escrows
    ensures
      var v := ViewOf(db, id);
      Only(db, db.(payments := UpdateMany(db.payments, id, from, to)), id, v.(payments := Restated(v.payments, from, to)))
  {
    hide PaymentsOf, UpdateMany;
    forall j: nat {
      UpdateManyAt(db.payments, id, from, to, j);
    }
  }

  /** The slots of one escrow's payments in a state. */
  function SlotsIn(payments: PaymentTable, id: nat, state: PaymentState): set<nat> {
    set k | k in payments && k.0 == id && payments[k].state == state :: k.1
  }

  lemma SlotsInView(db: Db, id: nat, state: PaymentState)
    requires id in db.escrows
    ensures SlotsIn(db.payments, id, state) == In(ViewOf(db, id).payments, state)
  {
    var rows := PaymentsOf(db.payments, id);
    forall i ensures i in SlotsIn(db.payments, id, state) <==> i in In(rows, state) {
      assert i in rows <==> (id, i) in db.payments;
      assert i in rows ==> rows[i] == db.payments[(id, i)];
    }
  }

  lemma InView(db: Db, id: nat, slot: nat)
    requires id in db.escrows
    ensures
      var rows := ViewOf(db, id).payments;
      (slot in rows <==> (id, slot) in db.payments) && (slot in rows ==> rows[slot] == db.payments[(id, slot)])
  {
  }
}
