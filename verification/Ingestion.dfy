/**
 * Reading a list of chain events into the store: sort, apply each with its marker in one transaction, skip what is
 * already applied. What a batch leaves does not depend on the order it arrived in, on repetition or on crashes.
 */
module Ingestion {
  import opened Prelude
  import opened Escrow
  import opened Events
  import opened Projection

  datatype RawEvent = RawEvent(id: Token, ledger: nat, event: ContractEvent)

  // ----- chronological order -----

  /** Ledger first, then paging token. */
  predicate Before(aLedger: nat, aId: Token, bLedger: nat, bId: Token) {
    aLedger < bLedger || (aLedger == bLedger && aId < bId)
  }

  predicate Precedes(a: RawEvent, b: RawEvent) {
    Before(a.ledger, a.id, b.ledger, b.id)
  }

  /** Non-decreasing in that order. */
  ghost predicate Ordered(raws: seq<RawEvent>) {
    forall i, j :: 0 <= i < j < |raws| ==> !Precedes(raws[j], raws[i])
  }

  function Insert(sorted: seq<RawEvent>, r: RawEvent): seq<RawEvent> {
    if sorted == [] || !Precedes(r, sorted[|sorted| - 1]) then sorted + [r]
    else Insert(sorted[..|sorted| - 1], r) + [sorted[|sorted| - 1]]
  }

  function Sorted(raws: seq<RawEvent>): seq<RawEvent> {
    if raws == [] then [] else Insert(Sorted(raws[..|raws| - 1]), raws[|raws| - 1])
  }

  /** A paging token names one event. */
  ghost predicate Coherent(raws: seq<RawEvent>) {
    forall i, j :: 0 <= i < |raws| && 0 <= j < |raws| && raws[i].id == raws[j].id ==> raws[i] == raws[j]
  }

  lemma {:induction false} InsertKeeps(sorted: seq<RawEvent>, r: RawEvent)
    ensures multiset(Insert(sorted, r)) == multiset(sorted) + multiset{r}
    ensures forall x :: x in Insert(sorted, r) ==> x == r || x in sorted
  {
    if sorted != [] && Precedes(r, sorted[|sorted| - 1]) {
      var n := |sorted| - 1;
      InsertKeeps(sorted[..n], r);
      hide Insert, Precedes;
      assert sorted == sorted[..n] + [sorted[n]];
    }
  }

  lemma {:induction false} InsertSorts(sorted: seq<RawEvent>, r: RawEvent)
    requires Ordered(sorted)
    ensures Ordered(Insert(sorted, r)) && multiset(Insert(sorted, r)) == multiset(sorted) + multiset{r}
  {
    InsertKeeps(sorted, r);
    if sorted != [] && Precedes(r, sorted[|sorted| - 1]) {
      var n := |sorted| - 1;
      InsertSorts(sorted[..n], r);
      InsertKeeps(sorted[..n], r);
      AppendOrdered(Insert(sorted[..n], r), sorted[n]);
    } else {
      BeforeAll(sorted, r);
      AppendOrdered(sorted, r);
    }
  }

  /** What does not come before the last of an ordered list comes before none of it. */
  lemma BeforeAll(sorted: seq<RawEvent>, r: RawEvent)
    requires Ordered(sorted) && (sorted == [] || !Precedes(r, sorted[|sorted| - 1]))
    ensures forall x :: x in sorted ==> !Precedes(r, x)
  {
    forall x | x in sorted ensures !Precedes(r, x) {
      var i :| 0 <= i < |sorted| && sorted[i] == x;
      if i < |sorted| - 1 {
        assert !Precedes(sorted[|sorted| - 1], sorted[i]);
      }
    }
  }

  lemma AppendOrdered(sorted: seq<RawEvent>, r: RawEvent)
    requires Ordered(sorted) && forall x :: x in sorted ==> !Precedes(r, x)
    ensures Ordered(sorted + [r])
  {
    hide Precedes;
    var all := sorted + [r];
    forall i, j | 0 <= i < j < |all| ensures !Precedes(all[j], all[i]) {
      assert all[i] == sorted[i];
      if j == |sorted| {
        assert sorted[i] in sorted;
      }
    }
  }

  lemma {:induction false} SortedSorts(raws: seq<RawEvent>)
    ensures Ordered(Sorted(raws)) && multiset(Sorted(raws)) == multiset(raws)
  {
    hide Insert;
    if raws != [] {
      var n := |raws| - 1;
      SortedSorts(raws[..n]);
      InsertSorts(Sorted(raws[..n]), raws[n]);
      assert raws == raws[..n] + [raws[n]];
    }
  }

  lemma SameMembers(a: seq<RawEvent>, b: seq<RawEvent>)
    requires multiset(a) == multiset(b)
    ensures forall r :: r in a <==> r in b
  {
    forall r ensures r in a <==> r in b {
      assert r in a <==> r in multiset(a);
      assert r in b <==> r in multiset(b);
    }
  }

  lemma CoherentMembers(a: seq<RawEvent>, b: seq<RawEvent>)
    requires Coherent(a) && forall r :: r in b ==> r in a
    ensures Coherent(b)
  {
    forall i, j | 0 <= i < |b| && 0 <= j < |b| && b[i].id == b[j].id ensures b[i] == b[j] {
      assert b[i] in a && b[j] in a;
    }
  }

  lemma SameLast(a: seq<RawEvent>, b: seq<RawEvent>)
    requires Ordered(a) && Ordered(b) && multiset(a) == multiset(b) && Coherent(a) && a != [] && b != []
    ensures a[|a| - 1] == b[|b| - 1]
  {
    SameMembers(a, b);
    var x, y := a[|a| - 1], b[|b| - 1];
    assert x in b && y in a;
    var i :| 0 <= i < |b| && b[i] == x;
    var j :| 0 <= j < |a| && a[j] == y;
    assert !Precedes(y, x) && !Precedes(x, y);
  }

  lemma DropLast(a: seq<RawEvent>)
    requires a != []
    ensures multiset(a[..|a| - 1]) == multiset(a) - multiset{a[|a| - 1]}
  {
    assert a == a[..|a| - 1] + [a[|a| - 1]];
  }

  /** Events sort into exactly one sequence. */
  lemma {:induction false} SortedUnique(a: seq<RawEvent>, b: seq<RawEvent>)
    requires Ordered(a) && Ordered(b) && multiset(a) == multiset(b) && Coherent(a)
    ensures a == b
  {
    assert |a| == |multiset(a)| && |b| == |multiset(b)|;
    if a != [] {
      var n := |a| - 1;
      SameLast(a, b);
      DropLast(a);
      DropLast(b);
      CoherentMembers(a, a[..n]);
      hide Coherent;
      SortedUnique(a[..n], b[..n]);
      assert a == a[..n] + [a[n]] && b == b[..n] + [b[n]];
    }
  }

  // ----- one event, one transaction -----

  datatype Ingested = Skipped | Processed(applied: Applied)

  function PayloadOf(parsed: Option<CoreFlowEvent>): Option<Object> {
    match parsed
    case None => None
    case Some(ev) => Some(Serialize(AsObject(ev)))
  }

  /** Applying an event together with its marker; one already applied is skipped, one left unattributed is not. */
  function Ingest(d: Deployment, s: Store, raw: RawEvent): (Ingested, Store) {
    if raw.id in s.marks && s.marks[raw.id].attributed then (Skipped, s)
    else
      var parsed := ParseEvent(raw.event);
      var (applied, next) := if parsed.Some? then ApplyEvent(d, s, parsed.value) else (Attributed(0, 0, 0), s);
      var mark :=
        if raw.id in s.marks then s.marks[raw.id].(attributed := applied.Attributed?)
        else Mark(applied.Attributed?, d, raw.ledger, PayloadOf(parsed));
      (Processed(applied), next.(marks := next.marks[raw.id := mark]))
  }

  datatype RunResult = RunResult(
    processed: nat, skipped: nat, lastLedger: nat, created: nat, paid: nat, findings: nat, unattributed: nat)

  function Tally(r: RunResult, raw: RawEvent, i: Ingested): RunResult {
    var r := r.(lastLedger := Max(r.lastLedger, raw.ledger));
    match i
    case Skipped => r.(skipped := r.skipped + 1)
    case Processed(Unattributed) => r.(processed := r.processed + 1, unattributed := r.unattributed + 1)
    case Processed(Attributed(c, p, f)) =>
      r.(processed := r.processed + 1, created := r.created + c, paid := r.paid + p, findings := r.findings + f)
  }

  function IngestAll(d: Deployment, s: Store, raws: seq<RawEvent>): (RunResult, Store) {
    if raws == [] then (RunResult(0, 0, 0, 0, 0, 0, 0), s)
    else
      var (r, mid) := IngestAll(d, s, raws[..|raws| - 1]);
      var raw := raws[|raws| - 1];
      var (i, s') := Ingest(d, mid, raw);
      (Tally(r, raw, i), s')
  }

  /** How far a run gets: up to the first event whose transaction the database rejects. */
  function Reach(raws: seq<RawEvent>, outages: set<Token>): (n: nat)
    ensures n <= |raws| && (outages == {} ==> n == |raws|)
  {
    if raws == [] then 0
    else
      var n := Reach(raws[..|raws| - 1], outages);
      if n == |raws| - 1 && raws[n].id !in outages then n + 1 else n
  }

  function ProcessBatch(d: Deployment, s: Store, raws: seq<RawEvent>, outages: set<Token>): (RunResult, Store) {
    var sorted := Sorted(raws);
    IngestAll(d, s, sorted[..Reach(sorted, outages)])
  }

  /** The order events arrive in does not matter. */
  lemma OrderIndependent(d: Deployment, s: Store, a: seq<RawEvent>, b: seq<RawEvent>, outages: set<Token>)
    requires multiset(a) == multiset(b) && Coherent(a)
    ensures ProcessBatch(d, s, a, outages) == ProcessBatch(d, s, b, outages)
  {
    SortedSorts(a);
    SortedSorts(b);
    SameMembers(a, Sorted(a));
    CoherentMembers(a, Sorted(a));
    SortedUnique(Sorted(a), Sorted(b));
  }

  // ----- repetition and crashes -----

  lemma {:induction false} IngestSplit(d: Deployment, s: Store, a: seq<RawEvent>, b: seq<RawEvent>)
    ensures IngestAll(d, s, a + b).1 == IngestAll(d, IngestAll(d, s, a).1, b).1
  {
    hide Ingest, Tally;
    if b == [] {
      assert a + b == a;
    } else {
      var n := |b| - 1;
      IngestSplit(d, s, a, b[..n]);
      assert (a + b)[..|a + b| - 1] == a + b[..n];
    }
  }

  /** Nothing more to do for this event: applied, or recorded while its escrow has no mapping. */
  predicate Settled(d: Deployment, s: Store, raw: RawEvent) {
    && raw.id in s.marks
    && (s.marks[raw.id].attributed
        || (var parsed := ParseEvent(raw.event); parsed.Some? && !Mapped(d, s, parsed.value.escrowId)))
  }

  lemma SettledStays(d: Deployment, s: Store, raw: RawEvent)
    requires Settled(d, s, raw)
    ensures Ingest(d, s, raw).1 == s
  {
    hide ParseEvent, Project, AsObject;
    assert Ingest(d, s, raw).1.marks == s.marks;
  }

  /** Applying events maps and unmaps nothing. */
  lemma ApplyKeepsMapping(d: Deployment, s: Store, ev: CoreFlowEvent, id: nat)
    ensures Mapped(d, ApplyEvent(d, s, ev).1, id) == Mapped(d, s, id)
    ensures ApplyEvent(d, s, ev).1.marks == s.marks
  {
    hide Project;
    if Mapped(d, s, ev.escrowId) {
      ProjectKeepsTenant(s.views[ev.escrowId], ev);
    }
  }

  lemma IngestKeepsMapping(d: Deployment, s: Store, raw: RawEvent, id: nat)
    ensures Mapped(d, Ingest(d, s, raw).1, id) == Mapped(d, s, id)
    ensures forall t :: t != raw.id ==> (t in Ingest(d, s, raw).1.marks <==> t in s.marks)
    ensures forall t :: t != raw.id && t in s.marks ==> Ingest(d, s, raw).1.marks[t] == s.marks[t]
  {
    hide ParseEvent, ApplyEvent, AsObject;
    var parsed := ParseEvent(raw.event);
    if parsed.Some? {
      ApplyKeepsMapping(d, s, parsed.value, id);
    }
  }

  lemma IngestSettles(d: Deployment, s: Store, raw: RawEvent, other: RawEvent)
    ensures Settled(d, Ingest(d, s, raw).1, raw)
    ensures Settled(d, s, other) && (other.id == raw.id ==> other == raw) ==> Settled(d, Ingest(d, s, raw).1, other)
  {
    hide ParseEvent, ApplyEvent, AsObject;
    var parsed, was := ParseEvent(raw.event), ParseEvent(other.event);
    if parsed.Some? {
      IngestKeepsMapping(d, s, raw, parsed.value.escrowId);
      Verdict(d, s, parsed.value);
    }
    if was.Some? {
      IngestKeepsMapping(d, s, raw, was.value.escrowId);
    }
    IngestKeepsMapping(d, s, raw, 0);
  }

  lemma Verdict(d: Deployment, s: Store, ev: CoreFlowEvent)
    ensures ApplyEvent(d, s, ev).0.Attributed? <==> Mapped(d, s, ev.escrowId)
  {
    hide Project;
  }

  lemma {:induction false} AllSettle(d: Deployment, s: Store, raws: seq<RawEvent>)
    requires Coherent(raws)
    ensures forall r :: r in raws ==> Settled(d, IngestAll(d, s, raws).1, r)
  {
    hide Settled, Ingest, Tally;
    if raws != [] {
      var n := |raws| - 1;
      AllSettle(d, s, raws[..n]);
      var mid := IngestAll(d, s, raws[..n]).1;
      forall r | r in raws ensures Settled(d, IngestAll(d, s, raws).1, r) {
        IngestSettles(d, mid, raws[n], r);
        if r != raws[n] {
          assert r in raws[..n];
        }
      }
    }
  }

  lemma {:induction false} SettledAllStay(d: Deployment, s: Store, raws: seq<RawEvent>)
    requires forall r :: r in raws ==> Settled(d, s, r)
    ensures IngestAll(d, s, raws).1 == s
  {
    hide Settled, Ingest, Tally;
    if raws != [] {
      var n := |raws| - 1;
      SettledAllStay(d, s, raws[..n]);
      SettledStays(d, s, raws[n]);
    }
  }

  /** Running the tail of a list after any earlier stretch of it re-does nothing. */
  lemma Resume(d: Deployment, s: Store, sorted: seq<RawEvent>, k: nat, m: nat)
    requires Coherent(sorted) && k <= |sorted| && m <= |sorted|
    ensures IngestAll(d, IngestAll(d, s, sorted[..k]).1, sorted[..m]).1 == IngestAll(d, s, sorted[..if k <= m then m else k]).1
  {
    hide Settled, Ingest, Tally;
    var s1 := IngestAll(d, s, sorted[..k]).1;
    CoherentMembers(sorted, sorted[..k]);
    AllSettle(d, s, sorted[..k]);
    if k <= m {
      SettledAllStay(d, s1, sorted[..k]);
      assert sorted[..m] == sorted[..k] + sorted[k..m];
      IngestSplit(d, s1, sorted[..k], sorted[k..m]);
      IngestSplit(d, s, sorted[..k], sorted[k..m]);
    } else {
      SettledAllStay(d, s1, sorted[..m]);
    }
  }

  lemma SortedCoherent(raws: seq<RawEvent>)
    requires Coherent(raws)
    ensures Coherent(Sorted(raws))
  {
    SortedSorts(raws);
    SameMembers(raws, Sorted(raws));
    CoherentMembers(raws, Sorted(raws));
  }

  /** The store after running the same batch once per entry of `runs`, each cut short by its own outages. */
  function Attempts(d: Deployment, s: Store, raws: seq<RawEvent>, runs: seq<set<Token>>): Store {
    if runs == [] then s
    else ProcessBatch(d, Attempts(d, s, raws, runs[..|runs| - 1]), raws, runs[|runs| - 1]).1
  }

  /** However many runs were cut short, the store is a prefix applied: never half an event, never one applied twice. */
  lemma {:induction false} CrashesLeaveAPrefix(d: Deployment, s: Store, raws: seq<RawEvent>, runs: seq<set<Token>>) returns (k: nat)
    requires Coherent(raws)
    ensures k <= |Sorted(raws)| && Attempts(d, s, raws, runs) == IngestAll(d, s, Sorted(raws)[..k]).1
  {
    var sorted := Sorted(raws);
    if runs == [] {
      k := 0;
    } else {
      var n := |runs| - 1;
      var before := CrashesLeaveAPrefix(d, s, raws, runs[..n]);
      var m := Reach(sorted, runs[n]);
      SortedCoherent(raws);
      Resume(d, s, sorted, before, m);
      k := if before <= m then m else before;
    }
  }

  /** After any number of interrupted runs, one that completes reaches what a single uninterrupted run would have. */
  lemma CrashSafe(d: Deployment, s: Store, raws: seq<RawEvent>, runs: seq<set<Token>>)
    requires Coherent(raws)
    ensures ProcessBatch(d, Attempts(d, s, raws, runs), raws, {}).1 == ProcessBatch(d, s, raws, {}).1
  {
    var k := CrashesLeaveAPrefix(d, s, raws, runs);
    SortedCoherent(raws);
    Resume(d, s, Sorted(raws), k, |Sorted(raws)|);
  }

  /** A batch processed again, in whole or in part and in any order, changes nothing. */
  lemma Idempotent(d: Deployment, s: Store, raws: seq<RawEvent>, again: seq<RawEvent>, outages: set<Token>)
    requires Coherent(raws) && forall r :: r in again ==> r in raws
    ensures
      var done := ProcessBatch(d, s, raws, {}).1;
      ProcessBatch(d, done, again, outages).1 == done
  {
    var sorted, twice := Sorted(raws), Sorted(again);
    var done := ProcessBatch(d, s, raws, {}).1;
    SortedCoherent(raws);
    assert sorted[..|sorted|] == sorted;
    AllSettle(d, s, sorted);
    SortedSorts(raws);
    SameMembers(raws, sorted);
    SortedSorts(again);
    SameMembers(again, twice);
    SettledAllStay(d, done, twice[..Reach(twice, outages)]);
  }

  // ----- several workers at once -----

  /**
   * A worker's next transaction on its event. `beaten`: the unique token rejects it, because since it looked another
   * worker has recorded the event; the worker counts it as skipped and goes on.
   */
  datatype Turn = Turn(worker: nat, beaten: bool)

  /** The shared store, and how far each worker is through its own copy of the batch. */
  datatype Crew = Crew(store: Store, reached: map<nat, nat>)

  function ReachedBy(c: Crew, worker: nat): nat {
    if worker in c.reached then c.reached[worker] else 0
  }

  /** `s` is the store when the workers began: only an event not recorded then can be lost to another worker. */
  function TakeTurn(d: Deployment, s: Store, sorted: seq<RawEvent>, c: Crew, t: Turn): Crew {
    var k := ReachedBy(c, t.worker);
    if k >= |sorted| then c
    else
      var lost := t.beaten && sorted[k].id in c.store.marks && sorted[k].id !in s.marks;
      Crew(if lost then c.store else Ingest(d, c.store, sorted[k]).1, c.reached[t.worker := k + 1])
  }

  function Turns(d: Deployment, s: Store, sorted: seq<RawEvent>, turns: seq<Turn>): Crew {
    if turns == [] then Crew(s, map[])
    else TakeTurn(d, s, sorted, Turns(d, s, sorted, turns[..|turns| - 1]), turns[|turns| - 1])
  }

  lemma {:induction false} MarkedByOne(d: Deployment, s: Store, raws: seq<RawEvent>, t: Token)
    requires t in IngestAll(d, s, raws).1.marks && t !in s.marks
    ensures exists i :: 0 <= i < |raws| && raws[i].id == t
  {
    hide Ingest, Tally;
    if raws != [] {
      var n := |raws| - 1;
      IngestKeepsMapping(d, IngestAll(d, s, raws[..n]).1, raws[n], 0);
      if raws[n].id != t {
        MarkedByOne(d, s, raws[..n], t);
        var i :| 0 <= i < |raws[..n]| && raws[..n][i].id == t;
        assert raws[i].id == t;
      }
    }
  }

  /** An event already recorded by the crew changes nothing when it comes round again. */
  lemma AgainIsNothing(d: Deployment, s: Store, sorted: seq<RawEvent>, m: nat, k: nat)
    requires Coherent(sorted) && m <= |sorted| && k < |sorted|
    requires k < m || (sorted[k].id in IngestAll(d, s, sorted[..m]).1.marks && sorted[k].id !in s.marks)
    ensures Ingest(d, IngestAll(d, s, sorted[..m]).1, sorted[k]).1 == IngestAll(d, s, sorted[..m]).1
  {
    hide Ingest, Tally, Settled;
    CoherentMembers(sorted, sorted[..m]);
    AllSettle(d, s, sorted[..m]);
    if k < m {
      assert sorted[..m][k] == sorted[k];
    } else {
      MarkedByOne(d, s, sorted[..m], sorted[k].id);
      var i :| 0 <= i < m && sorted[..m][i].id == sorted[k].id;
      assert sorted[i] == sorted[k] && sorted[..m][i] in sorted[..m];
    }
    SettledStays(d, IngestAll(d, s, sorted[..m]).1, sorted[k]);
  }

  /** However their transactions interleave, the store is the batch applied once up to where the foremost worker is. */
  lemma {:induction false} CrewLeavesAPrefix(d: Deployment, s: Store, sorted: seq<RawEvent>, turns: seq<Turn>) returns (m: nat)
    requires Coherent(sorted)
    ensures m <= |sorted| && Turns(d, s, sorted, turns).store == IngestAll(d, s, sorted[..m]).1
    ensures forall w: nat :: ReachedBy(Turns(d, s, sorted, turns), w) <= m
    ensures m > 0 ==> exists w: nat :: ReachedBy(Turns(d, s, sorted, turns), w) == m
  {
    hide Ingest, Tally, Coherent;
    if turns == [] {
      m := 0;
    } else {
      var t := turns[|turns| - 1];
      var before := CrewLeavesAPrefix(d, s, sorted, turns[..|turns| - 1]);
      var c, c' := Turns(d, s, sorted, turns[..|turns| - 1]), Turns(d, s, sorted, turns);
      var k := ReachedBy(c, t.worker);
      m := if k == before < |sorted| then before + 1 else before;
      if k < |sorted| {
        assert forall w: nat :: ReachedBy(c', w) == if w == t.worker then k + 1 else ReachedBy(c, w);
        if k < before || (sorted[k].id in c.store.marks && sorted[k].id !in s.marks) {
          AgainIsNothing(d, s, sorted, before, k);
        }
        if k == before {
          assert sorted[..m][..before] == sorted[..before];
          assert ReachedBy(c', t.worker) == m;
        } else {
          var w: nat :| ReachedBy(c, w) == before;
          assert ReachedBy(c', w) == before || w == t.worker;
        }
      }
    }
  }

  /**
   * Any number of workers racing through the same batch, in whatever order each received it: once one of them is through,
   * the store is what one worker alone would have left, whatever the others have done or still do.
   */
  lemma RacingWorkers(d: Deployment, s: Store, raws: seq<RawEvent>, turns: seq<Turn>, worker: nat)
    requires Coherent(raws) && ReachedBy(Turns(d, s, Sorted(raws), turns), worker) == |Sorted(raws)|
    ensures Turns(d, s, Sorted(raws), turns).store == ProcessBatch(d, s, raws, {}).1
  {
    SortedCoherent(raws);
    var sorted := Sorted(raws);
    var m := CrewLeavesAPrefix(d, s, sorted, turns);
    assert sorted[..m] == sorted[..Reach(sorted, {})];
    hide Sorted, IngestAll, Turns;
  }
}
