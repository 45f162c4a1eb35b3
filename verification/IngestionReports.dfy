/** What a run of the indexer reports and whom it comes to know: the counts are what the store gained, event by event. */
module IngestionReports {
  import opened Prelude
  import opened StateMachine
  import opened Events
  import opened Projection
  import opened Ingestion

  /** Summed over these escrows: payments, payments PAID, findings. */
  function Payments(views: map<nat, View>, ids: seq<nat>): nat {
    if ids == [] then 0
    else
      var id := ids[|ids| - 1];
      Payments(views, ids[..|ids| - 1]) + if id in views then |views[id].payments| else 0
  }

  function PaidPayments(views: map<nat, View>, ids: seq<nat>): nat {
    if ids == [] then 0
    else
      var id := ids[|ids| - 1];
      PaidPayments(views, ids[..|ids| - 1]) + if id in views then |In(views[id].payments, PAID)| else 0
  }

  function Findings(views: map<nat, View>, ids: seq<nat>): nat {
    if ids == [] then 0
    else
      var id := ids[|ids| - 1];
      Findings(views, ids[..|ids| - 1]) + if id in views then |views[id].findings| else 0
  }

  ghost predicate Lists(ids: seq<nat>, views: map<nat, View>) {
    && (forall i, j :: 0 <= i < j < |ids| ==> ids[i] != ids[j])
    && forall id :: id in views ==> id in ids
  }

  /** One view replaced by its projection. */
  lemma {:induction false} OneViewSums(views: map<nat, View>, ids: seq<nat>, id: nat, p: Projected)
    requires id in views && forall i, j :: 0 <= i < j < |ids| ==> ids[i] != ids[j]
    requires |p.view.payments| == |views[id].payments| + p.created
    requires |In(p.view.payments, PAID)| == |In(views[id].payments, PAID)| + p.paid
    requires |p.view.findings| == |views[id].findings| + p.findings
    ensures
      var after, here := views[id := p.view], id in ids;
      && Payments(after, ids) == Payments(views, ids) + (if here then p.created else 0)
      && PaidPayments(after, ids) == PaidPayments(views, ids) + (if here then p.paid else 0)
      && Findings(after, ids) == Findings(views, ids) + (if here then p.findings else 0)
  {
    hide In;
    if ids != [] {
      OneViewSums(views, ids[..|ids| - 1], id, p);
    }
  }

  /** What the store gained is what the report says. */
  ghost predicate Gained(s: Store, s': Store, r: RunResult, ids: seq<nat>) {
    && s'.views.Keys == s.views.Keys
    && r.created == Payments(s'.views, ids) - Payments(s.views, ids)
    && r.paid == PaidPayments(s'.views, ids) - PaidPayments(s.views, ids)
    && r.findings == Findings(s'.views, ids) - Findings(s.views, ids)
  }

  lemma IngestGains(d: Deployment, s: Store, raw: RawEvent, ids: seq<nat>)
    requires Lists(ids, s.views)
    ensures Gained(s, Ingest(d, s, raw).1, Tally(RunResult(0, 0, 0, 0, 0, 0, 0), raw, Ingest(d, s, raw).0), ids)
  {
    hide Project, ParseEvent, AsObject, Payments, PaidPayments, Findings, In;
    var parsed := ParseEvent(raw.event);
    if parsed.Some? && Mapped(d, s, parsed.value.escrowId) {
      var id := parsed.value.escrowId;
      CountsAreExact(s.views[id], parsed.value);
      OneViewSums(s.views, ids, id, Project(s.views[id], parsed.value));
    }
  }

  function Highest(raws: seq<RawEvent>): nat {
    if raws == [] then 0 else Max(Highest(raws[..|raws| - 1]), raws[|raws| - 1].ledger)
  }

  /** A ledger not below any event's, and one of theirs. */
  lemma {:induction false} HighestExactly(raws: seq<RawEvent>)
    ensures forall i :: 0 <= i < |raws| ==> raws[i].ledger <= Highest(raws)
    ensures raws != [] ==> exists i :: 0 <= i < |raws| && raws[i].ledger == Highest(raws)
  {
    if raws != [] {
      var n := |raws| - 1;
      HighestExactly(raws[..n]);
      assert n == 0 ==> Highest(raws[..n]) == 0;
      if Highest(raws) == raws[n].ledger || n == 0 {
        assert raws[n].ledger == Highest(raws);
      } else {
        var i :| 0 <= i < |raws[..n]| && raws[..n][i].ledger == Highest(raws[..n]);
        assert raws[i].ledger == Highest(raws);
      }
      forall i | 0 <= i < |raws| ensures raws[i].ledger <= Highest(raws) {
        if i < n { assert raws[..n][i] == raws[i]; }
      }
    }
  }

  /**
   * Over any list of events and from any store: every event was processed or skipped, the last ledger is the highest, and
   * the payments created, payments paid and findings counted are exactly what the escrows' pictures gained together.
   */
  lemma {:induction false} RunReportsGains(d: Deployment, s: Store, raws: seq<RawEvent>, ids: seq<nat>)
    requires Lists(ids, s.views)
    ensures
      var (r, s') := IngestAll(d, s, raws);
      && r.processed + r.skipped == |raws| && r.lastLedger == Highest(raws) && Gained(s, s', r, ids)
  {
    hide Ingest, Payments, PaidPayments, Findings;
    if raws != [] {
      var n := |raws| - 1;
      RunReportsGains(d, s, raws[..n], ids);
      IngestGains(d, IngestAll(d, s, raws[..n]).1, raws[n], ids);
    }
  }

  // ----- events left for later -----

  /** An event of an escrow no organization of this deployment has claimed. */
  predicate Waits(d: Deployment, s: Store, raw: RawEvent) {
    var ev := ParseEvent(raw.event);
    ev.Some? && !Mapped(d, s, ev.value.escrowId)
  }

  function Waiting(d: Deployment, s: Store, raws: seq<RawEvent>): nat {
    if raws == [] then 0 else Waiting(d, s, raws[..|raws| - 1]) + if Waits(d, s, raws[|raws| - 1]) then 1 else 0
  }

  lemma OneWaits(d: Deployment, s: Store, raw: RawEvent)
    requires raw.id !in s.marks
    ensures
      Ingest(d, s, raw).0.Processed?
      && (Ingest(d, s, raw).0 == Processed(Unattributed) <==> Waits(d, s, raw))
  {
    hide Project, ParseEvent, AsObject;
  }

  /** Of events never seen before, none is skipped and exactly those of unclaimed escrows are left unattributed. */
  lemma {:induction false} UnattributedExactly(d: Deployment, s: Store, raws: seq<RawEvent>)
    requires forall i :: 0 <= i < |raws| ==> raws[i].id !in s.marks
    requires forall i, j :: 0 <= i < j < |raws| ==> raws[i].id != raws[j].id
    ensures
      var (r, s') := IngestAll(d, s, raws);
      && r.skipped == 0 && r.unattributed == Waiting(d, s, raws)
      && (forall t :: t in s'.marks ==> t in s.marks || exists r :: r in raws && r.id == t)
      && forall id :: Mapped(d, s', id) == Mapped(d, s, id)
  {
    hide Ingest, ParseEvent, Mapped;
    if raws != [] {
      var n := |raws| - 1;
      UnattributedExactly(d, s, raws[..n]);
      var mid := IngestAll(d, s, raws[..n]).1;
      OneWaits(d, mid, raws[n]);
      MarksGrow(d, s, mid, raws);
      forall id ensures Mapped(d, Ingest(d, mid, raws[n]).1, id) == Mapped(d, s, id) {
        IngestKeepsMapping(d, mid, raws[n], id);
      }
    }
  }

  lemma MarksGrow(d: Deployment, s: Store, mid: Store, raws: seq<RawEvent>)
    requires raws != []
    requires forall t :: t in mid.marks ==> t in s.marks || exists r :: r in raws[..|raws| - 1] && r.id == t
    ensures forall t :: t in Ingest(d, mid, raws[|raws| - 1]).1.marks ==> t in s.marks || exists r :: r in raws && r.id == t
  {
    hide Ingest;
    IngestKeepsMapping(d, mid, raws[|raws| - 1], 0);
  }

  // ----- whom it comes to know -----

  /** This event adds a payment to that worker, in an escrow that organization has claimed. */
  predicate Introduces(d: Deployment, s: Store, raw: RawEvent, org: string, worker: Address) {
    var ev := ParseEvent(raw.event);
    && ev.Some? && ev.value.PaymentAddedEvent? && ev.value.worker == worker
    && Mapped(d, s, ev.value.escrowId) && s.views[ev.value.escrowId].escrow.org == org
  }

  lemma IngestIntroduces(d: Deployment, s: Store, raw: RawEvent, org: string, worker: Address)
    requires raw.id !in s.marks
    ensures (org, worker) in Ingest(d, s, raw).1.workers <==> (org, worker) in s.workers || Introduces(d, s, raw, org, worker)
  {
    hide Project, ParseEvent, AsObject;
  }

  lemma SameOrganizations(d: Deployment, s: Store, raw: RawEvent, other: RawEvent, org: string, worker: Address)
    ensures Introduces(d, Ingest(d, s, raw).1, other, org, worker) == Introduces(d, s, other, org, worker)
  {
    var parsed := ParseEvent(raw.event);
    hide Project, ParseEvent, AsObject;
    if parsed.Some? && Mapped(d, s, parsed.value.escrowId) {
      ProjectKeepsTenant(s.views[parsed.value.escrowId], parsed.value);
    }
  }

  lemma {:induction false} OrganizationsStay(d: Deployment, s: Store, raws: seq<RawEvent>, other: RawEvent, org: string, worker: Address)
    ensures Introduces(d, IngestAll(d, s, raws).1, other, org, worker) == Introduces(d, s, other, org, worker)
  {
    hide Ingest, Introduces;
    if raws != [] {
      OrganizationsStay(d, s, raws[..|raws| - 1], other, org, worker);
      SameOrganizations(d, IngestAll(d, s, raws[..|raws| - 1]).1, raws[|raws| - 1], other, org, worker);
    }
  }

  /** After events never seen before, an organization knows a worker if and only if it did or some event introduces it. */
  lemma {:induction false} WorkersExactly(d: Deployment, s: Store, raws: seq<RawEvent>, org: string, worker: Address)
    requires forall i :: 0 <= i < |raws| ==> raws[i].id !in s.marks
    requires forall i, j :: 0 <= i < j < |raws| ==> raws[i].id != raws[j].id
    ensures
      (org, worker) in IngestAll(d, s, raws).1.workers
      <==> (org, worker) in s.workers || exists i :: 0 <= i < |raws| && Introduces(d, s, raws[i], org, worker)
  {
    hide Ingest, Introduces;
    if raws != [] {
      var n := |raws| - 1;
      WorkersExactly(d, s, raws[..n], org, worker);
      UnattributedExactly(d, s, raws[..n]);
      var mid := IngestAll(d, s, raws[..n]).1;
      IngestIntroduces(d, mid, raws[n], org, worker);
      OrganizationsStay(d, s, raws[..n], raws[n], org, worker);
      if i :| 0 <= i < n && Introduces(d, s, raws[..n][i], org, worker) {
        assert Introduces(d, s, raws[i], org, worker);
      }
      if i :| 0 <= i < |raws| && Introduces(d, s, raws[i], org, worker) {
        if i < n { assert Introduces(d, s, raws[..n][i], org, worker); }
      }
    }
  }
}
