/**
 * Events that arrived before their escrow was claimed: recorded, kept pending, and applied later by a replay of the
 * stored payloads.
 */
module Backlog {
  import opened Prelude
  import opened Escrow
  import opened Events
  import opened Projection
  import opened Ingestion

  // ----- replaying -----

  /** The event a marker's payload holds; nothing for an event that was never understood. */
  function Stored(m: Mark): Option<CoreFlowEvent> {
    match m.payload
    case None => None
    case Some(o) =>
      match Deserialize(o)
      case None => None
      case Some(record) => AsEvent(record)
  }

  function Marked(s: Store, t: Token, attributed: bool): Store
    requires t in s.marks
  {
    s.(marks := s.marks[t := s.marks[t].(attributed := attributed)])
  }

  /** One pending event applied again from its marker. */
  function ReplayOne(d: Deployment, s: Store, t: Token): (Applied, Store)
    requires t in s.marks
    ensures ReplayOne(d, s, t).1.marks.Keys == s.marks.Keys
  {
    match Stored(s.marks[t])
    case None => (Attributed(0, 0, 0), Marked(s, t, true))
    case Some(ev) =>
      var (applied, next) := ApplyEvent(d, s, ev);
      (applied, Marked(next, t, applied.Attributed?))
  }

  function ReplayList(d: Deployment, s: Store, order: seq<Token>): (r: Store)
    requires forall t :: t in order ==> t in s.marks
    ensures r.marks.Keys == s.marks.Keys
  {
    if order == [] then s
    else ReplayOne(d, ReplayList(d, s, order[..|order| - 1]), order[|order| - 1]).1
  }

  function Unapplied(d: Deployment, s: Store): set<Token> {
    set t | t in s.marks && !s.marks[t].attributed && s.marks[t].deployment == d
  }

  predicate Earlier(marks: map<Token, Mark>, a: Token, b: Token)
    requires a in marks && b in marks
  {
    Before(marks[a].ledger, a, marks[b].ledger, b)
  }

  /** `t` comes before every other token of the set. */
  predicate IsEarliest(marks: map<Token, Mark>, tokens: set<Token>, t: Token)
    requires forall u :: u in tokens ==> u in marks
  {
    t in tokens && forall u :: u in tokens && u != t ==> Earlier(marks, t, u)
  }

  lemma {:induction false} EarliestExists(marks: map<Token, Mark>, tokens: set<Token>)
    requires tokens != {} && forall u :: u in tokens ==> u in marks
    ensures exists t :: IsEarliest(marks, tokens, t)
    decreases |tokens|
  {
    var x :| x in tokens;
    var rest := tokens - {x};
    if rest == {} {
      assert tokens == {x};
      assert IsEarliest(marks, tokens, x);
    } else {
      EarliestExists(marks, rest);
      var y :| IsEarliest(marks, rest, y);
      var t := if Earlier(marks, x, y) then x else y;
      forall u | u in tokens && u != t ensures Earlier(marks, t, u) {
        if u != x && u != y {
          assert u in rest;
        }
      }
      assert IsEarliest(marks, tokens, t);
    }
  }

  /** The markers in chronological order. */
  function Listed(marks: map<Token, Mark>, tokens: set<Token>): (l: seq<Token>)
    requires forall u :: u in tokens ==> u in marks
    ensures forall t :: t in l <==> t in tokens
    decreases |tokens|
  {
    if tokens == {} then []
    else
      EarliestExists(marks, tokens);
      var t :| t in tokens && IsEarliest(marks, tokens, t);
      [t] + Listed(marks, tokens - {t})
  }

  /** The pending events one replay examines: the earliest `limit` of them. */
  function Examined(d: Deployment, s: Store, limit: nat): seq<Token> {
    var all := Listed(s.marks, Unapplied(d, s));
    all[..if limit <= |all| then limit else |all|]
  }

  lemma {:induction false} ListedIsOrdered(marks: map<Token, Mark>, tokens: set<Token>)
    requires forall u :: u in tokens ==> u in marks
    ensures
      var l := Listed(marks, tokens);
      && |l| == |tokens| && (forall t :: t in l <==> t in tokens)
      && forall i, j :: 0 <= i < j < |l| ==> Earlier(marks, l[i], l[j])
    decreases |tokens|
  {
    if tokens != {} {
      var l := Listed(marks, tokens);
      ListedIsOrdered(marks, tokens - {l[0]});
      assert l[1..] == Listed(marks, tokens - {l[0]});
      forall t ensures t in l <==> t in tokens {
        assert t in l <==> t == l[0] || t in l[1..];
      }
      forall i, j | 0 <= i < j < |l| ensures Earlier(marks, l[i], l[j]) {
        assert l[j] == l[1..][j - 1] && l[j] in l[1..];
        if i > 0 {
          assert l[i] == l[1..][i - 1];
        }
      }
    }
  }

  // ----- a claimed backlog -----

  predicate Names(raw: RawEvent, id: nat) {
    var parsed := ParseEvent(raw.event);
    parsed.Some? && parsed.value.escrowId == id
  }

  /** The tokens of the events that name this escrow, in list order. */
  function TokensOf(raws: seq<RawEvent>, id: nat): seq<Token> {
    if raws == [] then []
    else
      var last := raws[|raws| - 1];
      TokensOf(raws[..|raws| - 1], id) + if Names(last, id) then [last.id] else []
  }

  /** None of these events has been seen before, and no token repeats. */
  ghost predicate Fresh(s: Store, raws: seq<RawEvent>) {
    && (forall i :: 0 <= i < |raws| ==> raws[i].id !in s.marks)
    && (forall i, j :: 0 <= i < j < |raws| ==> raws[i].id != raws[j].id)
  }

  /** The application records whose escrow this is. */
  function Claim(s: Store, id: nat, v: View): Store {
    s.(views := s.views[id := v])
  }

  /** A marker whose stored event names this escrow. */
  predicate Awaits(s: Store, t: Token, id: nat) {
    t in s.marks && Stored(s.marks[t]).Some? && Stored(s.marks[t]).value.escrowId == id
  }

  lemma PayloadReadsBack(m: Mark, ev: CoreFlowEvent)
    requires m.payload == PayloadOf(Some(ev))
    ensures Stored(m) == Some(ev)
  {
    hide AsObject, AsEvent, Serialize, Deserialize;
    EventRoundTrip(ev);
  }

  /** Applying an event neither reads nor writes markers. */
  lemma ApplyIgnoresMarks(d: Deployment, s: Store, ev: CoreFlowEvent, marks: map<Token, Mark>)
    ensures
      var (a, s') := ApplyEvent(d, s, ev);
      ApplyEvent(d, s.(marks := marks), ev) == (a, s'.(marks := marks)) && s'.marks == s.marks
  {
    hide Project;
  }

  /** Events of different escrows can be applied in either order. */
  lemma ApplyCommutes(d: Deployment, s: Store, x: CoreFlowEvent, y: CoreFlowEvent)
    requires x.escrowId != y.escrowId
    ensures
      var (ax, sx) := ApplyEvent(d, s, x);
      var (ay, sy) := ApplyEvent(d, s, y);
      && ApplyEvent(d, sy, x).0 == ax && ApplyEvent(d, sx, y).0 == ay
      && ApplyEvent(d, sy, x).1 == ApplyEvent(d, sx, y).1
  {
    hide Project;
    var sx, sy := ApplyEvent(d, s, x).1, ApplyEvent(d, s, y).1;
    var xy, yx := ApplyEvent(d, sx, y).1, ApplyEvent(d, sy, x).1;
    assert xy.views == yx.views && xy.workers == yx.workers;
  }

  lemma ClaimCommutes(d: Deployment, s: Store, raw: RawEvent, id: nat, v: View)
    requires !Names(raw, id)
    ensures Ingest(d, Claim(s, id, v), raw).1 == Claim(Ingest(d, s, raw).1, id, v)
  {
    hide Project, ParseEvent, AsObject;
    assert Ingest(d, Claim(s, id, v), raw).1.views == Claim(Ingest(d, s, raw).1, id, v).views;
  }

  lemma ReplayOneCommutes(d: Deployment, s: Store, raw: RawEvent, t: Token, id: nat)
    requires !Names(raw, id) && raw.id != t && Awaits(s, t, id)
    ensures Awaits(Ingest(d, s, raw).1, t, id)
    ensures ReplayOne(d, Ingest(d, s, raw).1, t).1 == Ingest(d, ReplayOne(d, s, t).1, raw).1
  {
    hide ParseEvent, AsObject, ApplyEvent, Stored;
    var ev, parsed := Stored(s.marks[t]).value, ParseEvent(raw.event);
    var a, b := Ingest(d, s, raw).1, ReplayOne(d, s, t).1;
    IngestKeepsMapping(d, s, raw, 0);
    var left, right := ReplayOne(d, a, t).1, Ingest(d, b, raw).1;
    var se := ApplyEvent(d, s, ev).1;
    ApplyIgnoresMarks(d, s, ev, a.marks);
    ApplyIgnoresMarks(d, s, ev, s.marks);
    if parsed.Some? && !(raw.id in s.marks && s.marks[raw.id].attributed) {
      var sp := ApplyEvent(d, s, parsed.value).1;
      ApplyCommutes(d, s, ev, parsed.value);
      ApplyIgnoresMarks(d, s, parsed.value, s.marks);
      ApplyIgnoresMarks(d, sp, ev, a.marks);
      ApplyIgnoresMarks(d, se, parsed.value, b.marks);
      assert a == sp.(marks := a.marks) && b == se.(marks := b.marks);
    }
    assert left.marks == right.marks;
    assert left == right;
  }

  /** Replaying leaves every other marker as it was. */
  lemma {:induction false} ReplayFrame(d: Deployment, s: Store, order: seq<Token>, u: Token)
    requires (forall t :: t in order ==> t in s.marks) && u !in order && u in s.marks
    ensures ReplayList(d, s, order).marks[u] == s.marks[u]
  {
    hide ApplyEvent, Stored;
    if order != [] {
      var n := |order| - 1;
      ReplayFrame(d, s, order[..n], u);
      var mid := ReplayList(d, s, order[..n]);
      if Stored(mid.marks[order[n]]).Some? {
        ApplyIgnoresMarks(d, mid, Stored(mid.marks[order[n]]).value, mid.marks);
      }
    }
  }

  lemma {:induction false} ReplayListCommutes(d: Deployment, s: Store, raw: RawEvent, order: seq<Token>, id: nat)
    requires !Names(raw, id) && raw.id !in order
    requires forall i, j :: 0 <= i < j < |order| ==> order[i] != order[j]
    requires forall t :: t in order ==> Awaits(s, t, id)
    ensures forall t :: t in order ==> t in s.marks && t in Ingest(d, s, raw).1.marks
    ensures forall t :: t in order ==> Awaits(Ingest(d, s, raw).1, t, id)
    ensures ReplayList(d, Ingest(d, s, raw).1, order) == Ingest(d, ReplayList(d, s, order), raw).1
  {
    hide Ingest, ReplayOne, Awaits, Names;
    forall t | t in order ensures Awaits(Ingest(d, s, raw).1, t, id) {
      ReplayOneCommutes(d, s, raw, t, id);
    }
    AwaitsAreMarked(s, order, id);
    AwaitsAreMarked(Ingest(d, s, raw).1, order, id);
    if order != [] {
      var n := |order| - 1;
      ReplayListCommutes(d, s, raw, order[..n], id);
      var mid := ReplayList(d, s, order[..n]);
      ReplayFrame(d, s, order[..n], order[n]);
      AwaitsSameMark(s, mid, order[n], id);
      ReplayOneCommutes(d, mid, raw, order[n], id);
    }
  }

  lemma AwaitsAreMarked(s: Store, order: seq<Token>, id: nat)
    requires forall t :: t in order ==> Awaits(s, t, id)
    ensures forall t :: t in order ==> t in s.marks
  {
  }

  lemma AwaitsSameMark(s: Store, s': Store, t: Token, id: nat)
    requires Awaits(s, t, id) && t in s'.marks && s'.marks[t] == s.marks[t]
    ensures Awaits(s', t, id)
  {
  }

  /** A marker that a replay does not examine can be added before or after it. */
  lemma {:induction false} ReplayIgnoresMark(d: Deployment, s: Store, order: seq<Token>, u: Token, m: Mark)
    requires (forall t :: t in order ==> t in s.marks) && u !in order
    ensures
      ReplayList(d, s.(marks := s.marks[u := m]), order)
      == var r := ReplayList(d, s, order); r.(marks := r.marks[u := m])
  {
    hide ApplyEvent, Stored;
    if order != [] {
      var n, t := |order| - 1, order[|order| - 1];
      ReplayIgnoresMark(d, s, order[..n], u, m);
      var mid := ReplayList(d, s, order[..n]);
      var marked := mid.(marks := mid.marks[u := m]);
      if Stored(mid.marks[t]).Some? {
        ApplyIgnoresMarks(d, mid, Stored(mid.marks[t]).value, marked.marks);
        ApplyIgnoresMarks(d, mid, Stored(mid.marks[t]).value, mid.marks);
      }
      assert ReplayOne(d, marked, t).1.marks == ReplayOne(d, mid, t).1.marks[u := m];
    }
  }

  /** An event of an escrow with no row is only marked. */
  lemma UnclaimedIsOnlyMarked(d: Deployment, s: Store, raw: RawEvent, id: nat)
    requires Names(raw, id) && id !in s.views && raw.id !in s.marks
    ensures Ingest(d, s, raw).1 == s.(marks := s.marks[raw.id := Mark(false, d, raw.ledger, PayloadOf(ParseEvent(raw.event)))])
  {
    hide Project, ParseEvent, AsObject;
  }

  /** Replaying that marker once the escrow is claimed does what ingesting the event would have done. */
  lemma ReplayIsIngest(d: Deployment, s: Store, raw: RawEvent, id: nat)
    requires Names(raw, id) && Mapped(d, s, id) && raw.id !in s.marks
    ensures
      var marked := s.(marks := s.marks[raw.id := Mark(false, d, raw.ledger, PayloadOf(ParseEvent(raw.event)))]);
      ReplayOne(d, marked, raw.id).1 == Ingest(d, s, raw).1
  {
    hide Project, ParseEvent, AsObject, Stored;
    var ev := ParseEvent(raw.event).value;
    var marked := s.(marks := s.marks[raw.id := Mark(false, d, raw.ledger, PayloadOf(ParseEvent(raw.event)))]);
    PayloadReadsBack(marked.marks[raw.id], ev);
    ApplyIgnoresMarks(d, s, ev, marked.marks);
    assert ReplayOne(d, marked, raw.id).1.marks == Ingest(d, s, raw).1.marks;
  }

  lemma {:induction false} IngestAllKeeps(d: Deployment, s: Store, raws: seq<RawEvent>, id: nat, t: Token)
    ensures Mapped(d, IngestAll(d, s, raws).1, id) == Mapped(d, s, id)
    ensures id !in s.views ==> id !in IngestAll(d, s, raws).1.views
    ensures t !in s.marks && (forall r :: r in raws ==> r.id != t) ==> t !in IngestAll(d, s, raws).1.marks
  {
    hide Ingest, Tally;
    if raws != [] {
      var n := |raws| - 1;
      IngestAllKeeps(d, s, raws[..n], id, t);
      var mid := IngestAll(d, s, raws[..n]).1;
      IngestKeepsMapping(d, mid, raws[n], id);
      IngestAddsNoEscrow(d, mid, raws[n]);
    }
  }

  lemma IngestAddsNoEscrow(d: Deployment, s: Store, raw: RawEvent)
    ensures Ingest(d, s, raw).1.views.Keys == s.views.Keys
  {
    hide Project, ParseEvent, AsObject;
  }

  lemma {:induction false} TokensAwait(d: Deployment, s: Store, raws: seq<RawEvent>, id: nat, v: View)
    requires Fresh(s, raws) && id !in s.views
    ensures
      var s' := Claim(IngestAll(d, s, raws).1, id, v);
      && (forall t :: t in TokensOf(raws, id) ==> Awaits(s', t, id) && !s'.marks[t].attributed && s'.marks[t].deployment == d)
      && (forall t :: t in TokensOf(raws, id) ==> exists r :: r in raws && Names(r, id) && r.id == t)
      && (forall r :: r in raws && Names(r, id) ==> r.id in TokensOf(raws, id))
      && forall i, j :: 0 <= i < j < |TokensOf(raws, id)| ==> TokensOf(raws, id)[i] != TokensOf(raws, id)[j]
  {
    hide Ingest, Tally, ParseEvent, Stored;
    if raws != [] {
      var n, last := |raws| - 1, raws[|raws| - 1];
      TokensAwait(d, s, raws[..n], id, v);
      var mid := IngestAll(d, s, raws[..n]).1;
      IngestAllKeeps(d, s, raws[..n], id, last.id);
      IngestKeepsMapping(d, mid, last, id);
      forall t | t in TokensOf(raws[..n], id) ensures t != last.id {
        var r :| r in raws[..n] && Names(r, id) && r.id == t;
      }
      var tokens, before := TokensOf(raws, id), TokensOf(raws[..n], id);
      forall i, j | 0 <= i < j < |tokens| ensures tokens[i] != tokens[j] {
        assert tokens[i] == before[i] && before[i] in before;
      }
      if Names(last, id) {
        UnclaimedIsOnlyMarked(d, mid, last, id);
        var s' := Ingest(d, mid, last).1;
        PayloadReadsBack(s'.marks[last.id], ParseEvent(last.event).value);
      }
    }
  }

  /** One more event of the claimed escrow: replayed last, it does what ingesting it would have. */
  lemma LateClaimNamed(d: Deployment, s: Store, raws: seq<RawEvent>, last: RawEvent, id: nat, v: View)
    requires Fresh(s, raws + [last]) && Fresh(s, raws) && id !in s.views && v.escrow.deployment == d && Names(last, id)
    requires forall t :: t in TokensOf(raws, id) ==> t in Claim(IngestAll(d, s, raws).1, id, v).marks
    requires ReplayList(d, Claim(IngestAll(d, s, raws).1, id, v), TokensOf(raws, id)) == IngestAll(d, Claim(s, id, v), raws).1
    ensures
      var mid := Ingest(d, IngestAll(d, s, raws).1, last).1;
      && (forall t :: t in TokensOf(raws, id) + [last.id] ==> t in Claim(mid, id, v).marks)
      && ReplayList(d, Claim(mid, id, v), TokensOf(raws, id) + [last.id]) == Ingest(d, IngestAll(d, Claim(s, id, v), raws).1, last).1
  {
    hide Ingest, ReplayOne, Tally, Names;
    NewToken(s, raws, last);
    TokensAwait(d, s, raws, id, v);
    IngestAllKeeps(d, s, raws, id, last.id);
    var before, tokens := IngestAll(d, s, raws).1, TokensOf(raws, id);
    var claimed := Claim(before, id, v);
    var done := ReplayList(d, claimed, tokens);
    UnclaimedIsOnlyMarked(d, before, last, id);
    var m := Mark(false, d, last.ledger, PayloadOf(ParseEvent(last.event)));
    ReplayIgnoresMark(d, claimed, tokens, last.id, m);
    IngestAllKeeps(d, Claim(s, id, v), raws, id, last.id);
    ReplayIsIngest(d, done, last, id);
    assert (tokens + [last.id])[..|tokens|] == tokens;
  }

  lemma NewToken(s: Store, raws: seq<RawEvent>, last: RawEvent)
    requires Fresh(s, raws + [last])
    ensures last.id !in s.marks && forall r :: r in raws ==> r.id != last.id
  {
    var all := raws + [last];
    assert all[|raws|] == last;
    forall r | r in raws ensures r.id != last.id {
      var i :| 0 <= i < |raws| && raws[i] == r;
      assert all[i] == r;
    }
  }

  /** One more event of another escrow: it commutes with the replay. */
  lemma LateClaimOther(d: Deployment, s: Store, raws: seq<RawEvent>, last: RawEvent, id: nat, v: View)
    requires Fresh(s, raws + [last]) && Fresh(s, raws) && id !in s.views && v.escrow.deployment == d && !Names(last, id)
    requires forall t :: t in TokensOf(raws, id) ==> t in Claim(IngestAll(d, s, raws).1, id, v).marks
    requires ReplayList(d, Claim(IngestAll(d, s, raws).1, id, v), TokensOf(raws, id)) == IngestAll(d, Claim(s, id, v), raws).1
    ensures
      var mid := Ingest(d, IngestAll(d, s, raws).1, last).1;
      && (forall t :: t in TokensOf(raws, id) ==> t in Claim(mid, id, v).marks)
      && ReplayList(d, Claim(mid, id, v), TokensOf(raws, id)) == Ingest(d, IngestAll(d, Claim(s, id, v), raws).1, last).1
  {
    hide Ingest, ReplayOne, Tally, Names;
    NewToken(s, raws, last);
    TokensAwait(d, s, raws, id, v);
    IngestAllKeeps(d, s, raws, id, last.id);
    var before, tokens := IngestAll(d, s, raws).1, TokensOf(raws, id);
    ClaimCommutes(d, before, last, id, v);
    ReplayListCommutes(d, Claim(before, id, v), last, tokens, id);
  }

  /**
   * The heart of it: ingest with the escrow unclaimed, claim it, replay its events in order; or claim it first and
   * just ingest. The two stores are equal.
   */
  lemma {:induction false} LateClaim(d: Deployment, s: Store, raws: seq<RawEvent>, id: nat, v: View)
    requires Fresh(s, raws) && id !in s.views && v.escrow.deployment == d
    ensures forall t :: t in TokensOf(raws, id) ==> t in Claim(IngestAll(d, s, raws).1, id, v).marks
    ensures
      ReplayList(d, Claim(IngestAll(d, s, raws).1, id, v), TokensOf(raws, id))
      == IngestAll(d, Claim(s, id, v), raws).1
  {
    hide Ingest, ReplayOne, Tally, Names;
    if raws != [] {
      var n, last := |raws| - 1, raws[|raws| - 1];
      LateClaim(d, s, raws[..n], id, v);
      assert raws[..n] + [last] == raws;
      if Names(last, id) {
        LateClaimNamed(d, s, raws[..n], last, id, v);
      } else {
        LateClaimOther(d, s, raws[..n], last, id, v);
        assert TokensOf(raws, id) == TokensOf(raws[..n], id);
      }
    }
  }

  // ----- the replay picks exactly those events, in that order -----

  /** Every event in this list is later than the one before it. */
  ghost predicate Chronological(raws: seq<RawEvent>) {
    forall i, j :: 0 <= i < j < |raws| ==> Precedes(raws[i], raws[j])
  }

  /** A pending event that a replay can do nothing with: its escrow still has no mapping. */
  predicate Stuck(d: Deployment, s: Store, t: Token)
    requires t in s.marks
  {
    Stored(s.marks[t]).Some? && !Mapped(d, s, Stored(s.marks[t]).value.escrowId)
  }

  function Replay(d: Deployment, s: Store, limit: nat): Store
  {
    ExaminedArePending(d, s, limit);
    ReplayList(d, s, Examined(d, s, limit))
  }

  lemma ExaminedArePending(d: Deployment, s: Store, limit: nat)
    ensures forall t :: t in Examined(d, s, limit) ==> t in Unapplied(d, s)
  {
    ListedIsOrdered(s.marks, Unapplied(d, s));
  }

  function Movable(d: Deployment, s: Store, order: seq<Token>): (m: seq<Token>)
    requires forall t :: t in order ==> t in s.marks
    ensures forall t :: t in m <==> t in order && !Stuck(d, s, t)
  {
    if order == [] then []
    else
      var last := order[|order| - 1];
      var front := Movable(d, s, order[..|order| - 1]);
      if Stuck(d, s, last) then front else front + [last]
  }

  lemma ReplayKeepsMapping(d: Deployment, s: Store, t: Token, id: nat)
    requires t in s.marks
    ensures Mapped(d, ReplayOne(d, s, t).1, id) == Mapped(d, s, id)
  {
    hide ApplyEvent, Stored;
    if Stored(s.marks[t]).Some? {
      ApplyKeepsMapping(d, s, Stored(s.marks[t]).value, id);
    }
  }

  lemma {:induction false} ReplayListKeepsMapping(d: Deployment, s: Store, order: seq<Token>, id: nat)
    requires forall t :: t in order ==> t in s.marks
    ensures Mapped(d, ReplayList(d, s, order), id) == Mapped(d, s, id)
  {
    hide ReplayOne, Mapped;
    if order != [] {
      var n := |order| - 1;
      ReplayListKeepsMapping(d, s, order[..n], id);
      ReplayKeepsMapping(d, ReplayList(d, s, order[..n]), order[n], id);
    }
  }

  lemma StuckStays(d: Deployment, s: Store, t: Token)
    requires t in s.marks && Stuck(d, s, t) && !s.marks[t].attributed
    ensures ReplayOne(d, s, t).1 == s
  {
    hide Stored;
    assert ReplayOne(d, s, t).1.marks == s.marks;
  }

  lemma {:induction false} StuckAreSkipped(d: Deployment, s: Store, order: seq<Token>)
    requires forall t :: t in order ==> t in s.marks && !s.marks[t].attributed
    requires forall i, j :: 0 <= i < j < |order| ==> order[i] != order[j]
    ensures ReplayList(d, s, order) == ReplayList(d, s, Movable(d, s, order))
  {
    hide ReplayOne, Stored, Mapped;
    if order != [] {
      var n, t := |order| - 1, order[|order| - 1];
      StuckAreSkipped(d, s, order[..n]);
      var mid := ReplayList(d, s, order[..n]);
      ReplayFrame(d, s, order[..n], t);
      if Stuck(d, s, t) {
        ReplayListKeepsMapping(d, s, order[..n], Stored(s.marks[t]).value.escrowId);
        StuckStays(d, mid, t);
      } else {
        assert Movable(d, s, order)[..|Movable(d, s, order)| - 1] == Movable(d, s, order[..n]);
      }
    }
  }

  ghost predicate InOrder(marks: map<Token, Mark>, order: seq<Token>)
    requires forall t :: t in order ==> t in marks
  {
    forall i, j :: 0 <= i < j < |order| ==> Earlier(marks, order[i], order[j])
  }

  lemma {:induction false} MovableInOrder(d: Deployment, s: Store, order: seq<Token>)
    requires (forall t :: t in order ==> t in s.marks) && InOrder(s.marks, order)
    ensures InOrder(s.marks, Movable(d, s, order))
  {
    hide Stuck;
    if order != [] {
      var n := |order| - 1;
      MovableInOrder(d, s, order[..n]);
      var front := Movable(d, s, order[..n]);
      forall i | 0 <= i < |front| ensures Earlier(s.marks, front[i], order[n]) {
        assert front[i] in order[..n];
      }
    }
  }

  /** One chronological list per set of tokens. */
  lemma {:induction false} OrderUnique(marks: map<Token, Mark>, a: seq<Token>, b: seq<Token>)
    requires forall t :: t in a ==> t in marks
    requires forall t :: t in a <==> t in b
    requires InOrder(marks, a) && InOrder(marks, b)
    ensures a == b
  {
    assert b != [] ==> b[0] in a;
    if a != [] {
      assert a[0] in b;
      var x, y := a[|a| - 1], b[|b| - 1];
      assert x in b && y in a;
      var i :| 0 <= i < |b| && b[i] == x;
      var j :| 0 <= j < |a| && a[j] == y;
      assert x == y;
      var a', b' := a[..|a| - 1], b[..|b| - 1];
      forall t ensures t in a' <==> t in b' {
        LastIsLast(marks, a, t);
        LastIsLast(marks, b, t);
      }
      OrderUnique(marks, a', b');
      assert a == a' + [x] && b == b' + [y];
    }
  }

  lemma LastIsLast(marks: map<Token, Mark>, a: seq<Token>, t: Token)
    requires (forall u :: u in a ==> u in marks) && InOrder(marks, a) && a != []
    ensures t in a[..|a| - 1] <==> t in a && t != a[|a| - 1]
  {
    if t in a && t != a[|a| - 1] {
      var i :| 0 <= i < |a| && a[i] == t;
      assert a[..|a| - 1][i] == t;
    }
  }

  /** What ingesting leaves in the markers. */
  lemma {:induction false} MarksAfter(d: Deployment, s: Store, raws: seq<RawEvent>)
    requires Fresh(s, raws)
    ensures
      var s' := IngestAll(d, s, raws).1;
      && (forall t :: t in s.marks ==> t in s'.marks && s'.marks[t] == s.marks[t])
      && (forall r :: r in raws ==>
            r.id in s'.marks
            && var parsed := ParseEvent(r.event);
               s'.marks[r.id] == Mark(parsed.None? || Mapped(d, s, parsed.value.escrowId), d, r.ledger, PayloadOf(parsed)))
      && (forall t :: t in s'.marks ==> t in s.marks || exists r :: r in raws && r.id == t)
  {
    hide Tally, ParseEvent, Mapped, AsObject;
    if raws != [] {
      var n, last := |raws| - 1, raws[|raws| - 1];
      MarksAfter(d, s, raws[..n]);
      var mid, s' := IngestAll(d, s, raws[..n]).1, IngestAll(d, s, raws).1;
      var parsed := ParseEvent(last.event);
      assert last.id !in mid.marks;
      IngestKeepsMapping(d, mid, last, 0);
      if parsed.Some? {
        IngestAllKeeps(d, s, raws[..n], parsed.value.escrowId, last.id);
        Verdict(d, mid, parsed.value);
      }
      hide ApplyEvent;
      forall r | r in raws
        ensures
          && r.id in s'.marks
          && var p := ParseEvent(r.event);
             s'.marks[r.id] == Mark(p.None? || Mapped(d, s, p.value.escrowId), d, r.ledger, PayloadOf(p))
      {
        if r != last {
          assert r in raws[..n];
        }
      }
      forall t | t in s'.marks ensures t in s.marks || exists r :: r in raws && r.id == t {
        if t !in s.marks && t != last.id {
          var r :| r in raws[..n] && r.id == t;
          assert r in raws;
        }
      }
    }
  }

  lemma {:induction false} TokensInOrder(d: Deployment, s: Store, raws: seq<RawEvent>, id: nat, marks: map<Token, Mark>)
    requires Chronological(raws)
    requires forall r :: r in raws ==> r.id in marks && marks[r.id].ledger == r.ledger
    ensures forall t :: t in TokensOf(raws, id) ==> exists r :: r in raws && r.id == t && Names(r, id)
    ensures (forall t :: t in TokensOf(raws, id) ==> t in marks) && InOrder(marks, TokensOf(raws, id))
  {
    hide Names;
    if raws != [] {
      var n, last := |raws| - 1, raws[|raws| - 1];
      TokensInOrder(d, s, raws[..n], id, marks);
      forall t | t in TokensOf(raws[..n], id) ensures t in marks && Earlier(marks, t, last.id) {
        var r :| r in raws[..n] && r.id == t && Names(r, id);
      }
      forall t | t in TokensOf(raws, id) ensures t in marks && exists r :: r in raws && r.id == t && Names(r, id) {
        if t in TokensOf(raws[..n], id) {
          var r :| r in raws[..n] && r.id == t && Names(r, id);
          assert r in raws;
        } else {
          assert last in raws && last.id == t && Names(last, id);
        }
      }
    }
  }

  /** The pending events a replay can act on, after the claim, are exactly the claimed escrow's, in ledger order. */
  lemma MovableAreTheClaimed(d: Deployment, s: Store, raws: seq<RawEvent>, id: nat, v: View)
    requires Fresh(s, raws) && Chronological(raws) && id !in s.views && v.escrow.deployment == d
    requires forall t :: t in Unapplied(d, s) ==> Stuck(d, Claim(s, id, v), t)
    ensures
      var s' := Claim(IngestAll(d, s, raws).1, id, v);
      Movable(d, s', Listed(s'.marks, Unapplied(d, s'))) == TokensOf(raws, id)
  {
    hide Stored, IngestAll, Mapped, ParseEvent, AsObject;
    var s' := Claim(IngestAll(d, s, raws).1, id, v);
    var pending, tokens := Listed(s'.marks, Unapplied(d, s')), TokensOf(raws, id);
    MarksAfter(d, s, raws);
    ListedIsOrdered(s'.marks, Unapplied(d, s'));
    MovableInOrder(d, s', pending);
    TokensInOrder(d, s, raws, id, s'.marks);
    TokensAwait(d, s, raws, id, v);
    forall t ensures t in Movable(d, s', pending) <==> t in tokens {
      if t in pending && !Stuck(d, s', t) {
        MovableIsNamed(d, s, raws, id, v, t);
      }
      if t in tokens {
        ClaimedMoves(d, s', id, t);
      }
    }
    OrderUnique(s'.marks, Movable(d, s', pending), tokens);
  }

  lemma ClaimedMoves(d: Deployment, s: Store, id: nat, t: Token)
    requires Awaits(s, t, id) && id in s.views && s.views[id].escrow.deployment == d
    ensures !Stuck(d, s, t)
  {
  }

  lemma MovableIsNamed(d: Deployment, s: Store, raws: seq<RawEvent>, id: nat, v: View, t: Token)
    requires Fresh(s, raws) && id !in s.views && v.escrow.deployment == d
    requires forall t :: t in Unapplied(d, s) ==> Stuck(d, Claim(s, id, v), t)
    requires var s' := Claim(IngestAll(d, s, raws).1, id, v); t in Unapplied(d, s') && !Stuck(d, s', t)
    ensures t in TokensOf(raws, id)
  {
    hide Stored, IngestAll, ParseEvent, AsObject;
    var s' := Claim(IngestAll(d, s, raws).1, id, v);
    MarksAfter(d, s, raws);
    if t in s.marks {
      assert t in Unapplied(d, s) && Stuck(d, Claim(s, id, v), t);
      IngestAllKeeps(d, s, raws, Stored(s.marks[t]).value.escrowId, t);
    } else {
      var r :| r in raws && r.id == t;
      var ev := ParseEvent(r.event).value;
      PayloadReadsBack(s'.marks[t], ev);
      IngestAllKeeps(d, s, raws, ev.escrowId, t);
      TokensAwait(d, s, raws, id, v);
    }
  }

  /**
   * A backlog recorded before its escrow was claimed, then claimed and replayed in one go, leaves the same payments,
   * findings, audit rows and markers as if the mapping had existed from the start.
   */
  lemma BacklogMakesNoDifference(d: Deployment, s: Store, raws: seq<RawEvent>, id: nat, v: View, limit: nat)
    requires Fresh(s, raws) && Chronological(raws) && id !in s.views && v.escrow.deployment == d
    requires forall t :: t in Unapplied(d, s) ==> Stuck(d, Claim(s, id, v), t)
    requires |Unapplied(d, Claim(IngestAll(d, s, raws).1, id, v))| <= limit
    ensures Replay(d, Claim(IngestAll(d, s, raws).1, id, v), limit) == IngestAll(d, Claim(s, id, v), raws).1
  {
    hide IngestAll, Stuck, Ingest, ReplayOne;
    var s' := Claim(IngestAll(d, s, raws).1, id, v);
    var pending := Listed(s'.marks, Unapplied(d, s'));
    ListedIsOrdered(s'.marks, Unapplied(d, s'));
    assert Examined(d, s', limit) == pending;
    StuckAreSkipped(d, s', pending);
    MovableAreTheClaimed(d, s, raws, id, v);
    LateClaim(d, s, raws, id, v);
  }

  // ----- which pending events a replay ever reaches -----

  /** The store after `n` replays. */
  function Rounds(d: Deployment, s: Store, limit: nat, n: nat): Store {
    if n == 0 then s else Replay(d, Rounds(d, s, limit, n - 1), limit)
  }

  /** The pending events ahead of `t` that no replay can apply. */
  function StuckBefore(d: Deployment, s: Store, t: Token): set<Token>
    requires t in s.marks
  {
    set u | u in Unapplied(d, s) && Stuck(d, s, u) && Earlier(s.marks, u, t)
  }

  lemma {:induction false} DistinctSize(order: seq<Token>, tokens: set<Token>)
    requires forall i, j :: 0 <= i < j < |order| ==> order[i] != order[j]
    requires forall t :: t in order ==> t in tokens
    ensures |order| <= |tokens|
  {
    if order != [] {
      var n := |order| - 1;
      assert order[n] in order;
      forall t | t in order[..n] ensures t in tokens - {order[n]} {
        assert t in order;
      }
      DistinctSize(order[..n], tokens - {order[n]});
    }
  }

  /** A set whose every member comes before position `k` of a chronological list has at most `k` members. */
  lemma {:induction false} PrefixSize(order: seq<Token>, tokens: set<Token>, k: nat)
    requires k <= |order| && forall t :: t in tokens ==> t in order[..k]
    ensures |tokens| <= k
  {
    if k == 0 {
      assert tokens == {};
    } else {
      var rest := tokens - {order[k - 1]};
      forall t | t in rest ensures t in order[..k - 1] {
        assert t in order[..k];
      }
      PrefixSize(order, rest, k - 1);
    }
  }

  lemma {:induction false} ReplayMarks(d: Deployment, s: Store, order: seq<Token>, u: Token)
    requires (forall t :: t in order ==> t in s.marks && !s.marks[t].attributed) && u in s.marks
    requires forall i, j :: 0 <= i < j < |order| ==> order[i] != order[j]
    ensures
      ReplayList(d, s, order).marks[u]
      == if u in order then s.marks[u].(attributed := !Stuck(d, s, u)) else s.marks[u]
  {
    hide ApplyEvent, Stored, Mapped;
    if order != [] {
      var n, t := |order| - 1, order[|order| - 1];
      ReplayMarks(d, s, order[..n], u);
      ReplayMarks(d, s, order[..n], t);
      var mid := ReplayList(d, s, order[..n]);
      if Stored(mid.marks[t]).Some? {
        var ev := Stored(mid.marks[t]).value;
        ApplyIgnoresMarks(d, mid, ev, mid.marks);
        Verdict(d, mid, ev);
        ReplayListKeepsMapping(d, s, order[..n], ev.escrowId);
      }
    }
  }

  /** One replay clears from the pending events exactly the examined ones it could apply, and frees no stuck one. */
  lemma ReplayClears(d: Deployment, s: Store, limit: nat)
    ensures
      var s', seen := Replay(d, s, limit), Examined(d, s, limit);
      && s'.marks.Keys == s.marks.Keys
      && Unapplied(d, s') == (set u | u in Unapplied(d, s) && (u !in seen || Stuck(d, s, u)))
      && (forall u :: u in s.marks ==> Stuck(d, s', u) == Stuck(d, s, u) && s'.marks[u].ledger == s.marks[u].ledger)
  {
    hide Stored, ReplayOne;
    var s', seen := Replay(d, s, limit), Examined(d, s, limit);
    ListedIsOrdered(s.marks, Unapplied(d, s));
    ExaminedArePending(d, s, limit);
    forall u | u in s.marks
      ensures Stuck(d, s', u) == Stuck(d, s, u) && s'.marks[u].ledger == s.marks[u].ledger
      ensures u in Unapplied(d, s') <==> u in Unapplied(d, s) && (u !in seen || Stuck(d, s, u))
    {
      ReplayMarks(d, s, seen, u);
      SamePayload(s.marks[u], s'.marks[u]);
      if Stored(s.marks[u]).Some? {
        ReplayListKeepsMapping(d, s, seen, Stored(s.marks[u]).value.escrowId);
      }
    }
  }

  lemma SamePayload(m: Mark, m': Mark)
    requires m.payload == m'.payload
    ensures Stored(m) == Stored(m')
  {
  }

  lemma StuckBeforeStays(d: Deployment, s: Store, limit: nat, t: Token)
    requires t in s.marks
    ensures StuckBefore(d, Replay(d, s, limit), t) == StuckBefore(d, s, t)
  {
    hide Stuck, Replay;
    ReplayClears(d, s, limit);
  }

  /** A pending event with `limit` stuck ones ahead of it is not examined. */
  lemma CrowdedOut(d: Deployment, s: Store, limit: nat, t: Token)
    requires t in Unapplied(d, s) && |StuckBefore(d, s, t)| >= limit
    ensures t !in Examined(d, s, limit)
  {
    var all := Listed(s.marks, Unapplied(d, s));
    ListedIsOrdered(s.marks, Unapplied(d, s));
    if t in Examined(d, s, limit) {
      var k :| 0 <= k < |all| && k < limit && all[k] == t;
      forall u | u in StuckBefore(d, s, t) ensures u in all[..k] {
        var i :| 0 <= i < |all| && all[i] == u;
        assert i < k;
        assert all[..k][i] == u;
      }
      PrefixSize(all, StuckBefore(d, s, t), k);
    }
  }

  lemma OnlyStuckExamined(d: Deployment, s: Store, limit: nat, t: Token)
    requires t in Unapplied(d, s) && t !in Examined(d, s, limit)
    requires forall u :: u in Examined(d, s, limit) ==> u in s.marks && Stuck(d, s, u)
    ensures |StuckBefore(d, s, t)| >= limit
  {
    hide Stuck;
    var all, seen := Listed(s.marks, Unapplied(d, s)), Examined(d, s, limit);
    ListedIsOrdered(s.marks, Unapplied(d, s));
    var k :| 0 <= k < |all| && all[k] == t;
    assert forall i :: 0 <= i < |seen| ==> seen[i] == all[i] && seen[i] != t;
    forall u | u in seen ensures u in StuckBefore(d, s, t) {
      var i :| 0 <= i < |seen| && seen[i] == u;
      assert all[i] == u;
    }
    DistinctSize(seen, StuckBefore(d, s, t));
  }

  /** While an applicable event has fewer than `limit` stuck ones ahead, every replay applies something. */
  lemma ReplayProgresses(d: Deployment, s: Store, limit: nat, t: Token)
    requires t in Unapplied(d, s) && !Stuck(d, s, t) && |StuckBefore(d, s, t)| < limit
    ensures exists u :: u in Examined(d, s, limit) && u in s.marks && !Stuck(d, s, u)
  {
    hide Stuck, StuckBefore, Listed;
    ExaminedArePending(d, s, limit);
    if t !in Examined(d, s, limit) && forall u :: u in Examined(d, s, limit) ==> u in s.marks && Stuck(d, s, u) {
      OnlyStuckExamined(d, s, limit, t);
    }
  }

  /** Crowded out once, crowded out for good: no number of replays reaches it until some other escrow is claimed. */
  lemma {:induction false} Starves(d: Deployment, s: Store, limit: nat, n: nat, t: Token)
    requires t in Unapplied(d, s) && |StuckBefore(d, s, t)| >= limit
    ensures
      var s' := Rounds(d, s, limit, n);
      t in Unapplied(d, s') && StuckBefore(d, s', t) == StuckBefore(d, s, t)
  {
    hide Replay, StuckBefore;
    if n > 0 {
      Starves(d, s, limit, n - 1, t);
      var mid := Rounds(d, s, limit, n - 1);
      CrowdedOut(d, mid, limit, t);
      ReplayClears(d, mid, limit);
      StuckBeforeStays(d, mid, limit, t);
    }
  }

  lemma {:induction false} RoundsShift(d: Deployment, s: Store, limit: nat, n: nat)
    ensures Rounds(d, Replay(d, s, limit), limit, n) == Rounds(d, s, limit, n + 1)
  {
    hide Replay;
    if n > 0 {
      RoundsShift(d, s, limit, n - 1);
    }
  }

  lemma {:induction false} Drains(d: Deployment, s: Store, limit: nat, t: Token) returns (n: nat)
    requires t in Unapplied(d, s) && !Stuck(d, s, t) && |StuckBefore(d, s, t)| < limit
    ensures t in s.marks && t !in Unapplied(d, Rounds(d, s, limit, n))
    decreases |Unapplied(d, s)|
  {
    hide Replay, Stuck, StuckBefore;
    var s' := Replay(d, s, limit);
    ReplayClears(d, s, limit);
    if t in Unapplied(d, s') {
      ReplayProgresses(d, s, limit, t);
      ExaminedArePending(d, s, limit);
      var u :| u in Examined(d, s, limit) && u in s.marks && !Stuck(d, s, u);
      assert Unapplied(d, s') <= Unapplied(d, s) - {u};
      SmallerSet(Unapplied(d, s'), Unapplied(d, s), u);
      StuckBeforeStays(d, s, limit, t);
      var m := Drains(d, s', limit, t);
      RoundsShift(d, s, limit, m);
      n := m + 1;
    } else {
      n := 1;
      assert Rounds(d, s, limit, 0) == s;
    }
  }

  lemma SmallerSet(a: set<Token>, b: set<Token>, u: Token)
    requires a <= b - {u} && u in b
    ensures |a| < |b|
  {
    Subset(a, b - {u});
  }

  lemma {:induction false} Subset(a: set<Token>, b: set<Token>)
    requires a <= b
    ensures |a| <= |b|
  {
    if a != {} {
      var x :| x in a;
      Subset(a - {x}, b - {x});
    }
  }

  /**
   * Exactly when a replay with a limit serves a claimed event: it is applied after some number of replays if and
   * only if fewer than `limit` pending events of unclaimed escrows are ahead of it.
   */
  lemma ReplayServes(d: Deployment, s: Store, limit: nat, t: Token)
    requires t in Unapplied(d, s) && !Stuck(d, s, t)
    ensures (exists n: nat :: t !in Unapplied(d, Rounds(d, s, limit, n))) <==> |StuckBefore(d, s, t)| < limit
  {
    hide Rounds, StuckBefore, Stuck;
    if |StuckBefore(d, s, t)| < limit {
      var n := Drains(d, s, limit, t);
    } else {
      forall n: nat ensures t in Unapplied(d, Rounds(d, s, limit, n)) {
        Starves(d, s, limit, n, t);
      }
    }
  }

  // ----- a replay in which the database rejects some events, and what it reports -----

  /** An examined event whose transaction fails: it is logged, left pending, and the rest go on. */
  predicate Fails(marks: map<Token, Mark>, t: Token, outages: set<Token>)
    requires t in marks
  {
    Stored(marks[t]).Some? && t in outages
  }

  /** A marker without a readable event whose update is rejected: nothing catches that, and the replay ends there. */
  predicate Breaks(marks: map<Token, Mark>, t: Token, outages: set<Token>)
    requires t in marks
  {
    Stored(marks[t]) == None && t in outages
  }

  /** The examined markers up to the first at which the replay ends. */
  function Attempted(marks: map<Token, Mark>, order: seq<Token>, outages: set<Token>): (done: seq<Token>)
    requires forall t :: t in order ==> t in marks
    ensures done <= order && forall t :: t in done ==> t in marks
  {
    if order == [] then []
    else
      var n := |order| - 1;
      var done := Attempted(marks, order[..n], outages);
      if |done| < n || Breaks(marks, order[n], outages) then done else order
  }

  /** It is the prefix in which nothing ends the replay, and what follows it, if anything, does. */
  lemma {:induction false} AttemptedExactly(marks: map<Token, Mark>, order: seq<Token>, outages: set<Token>, k: nat)
    requires (forall t :: t in order ==> t in marks) && k <= |order|
    ensures
      |Attempted(marks, order, outages)| == k
      <==> (forall i :: 0 <= i < k ==> !Breaks(marks, order[i], outages)) && (k < |order| ==> Breaks(marks, order[k], outages))
  {
    hide Breaks;
    if order != [] {
      var n := |order| - 1;
      AttemptedExactly(marks, order[..n], outages, n);
      if k < n {
        AttemptedExactly(marks, order[..n], outages, k);
      }
    }
  }

  lemma NoOutageNoBreak(marks: map<Token, Mark>, order: seq<Token>)
    requires forall t :: t in order ==> t in marks
    ensures Attempted(marks, order, {}) == order
  {
    AttemptedExactly(marks, order, {}, |order|);
  }

  /** The examined events that get through. */
  function Surviving(marks: map<Token, Mark>, order: seq<Token>, outages: set<Token>): (survivors: seq<Token>)
    requires forall t :: t in order ==> t in marks
    ensures forall t :: t in survivors <==> t in order && !Fails(marks, t, outages)
  {
    if order == [] then []
    else
      var n := |order| - 1;
      Surviving(marks, order[..n], outages) + if Fails(marks, order[n], outages) then [] else [order[n]]
  }

  lemma NoneFails(marks: map<Token, Mark>, t: Token)
    requires t in marks
    ensures !Fails(marks, t, {})
  {
    hide Stored;
  }

  lemma {:induction false} AllSurvive(marks: map<Token, Mark>, order: seq<Token>)
    requires forall t :: t in order ==> t in marks
    ensures Surviving(marks, order, {}) == order
  {
    hide Surviving, Fails;
    if order == [] {
      NothingToSurvive(marks);
    } else {
      var n := |order| - 1;
      AllSurvive(marks, order[..n]);
      NoneFails(marks, order[n]);
      SurvivesLast(marks, order, {});
      assert order[..n] + [order[n]] == order;
    }
  }

  lemma NothingToSurvive(marks: map<Token, Mark>)
    ensures Surviving(marks, [], {}) == []
  {
  }

  lemma SurvivesLast(marks: map<Token, Mark>, order: seq<Token>, outages: set<Token>)
    requires order != [] && (forall t :: t in order ==> t in marks) && !Fails(marks, order[|order| - 1], outages)
    ensures Surviving(marks, order, outages) == Surviving(marks, order[..|order| - 1], outages) + [order[|order| - 1]]
  {
    hide Fails;
  }

  predicate Distinct(order: seq<Token>) {
    forall i, j :: 0 <= i < j < |order| ==> order[i] != order[j]
  }

  lemma {:induction false} SurvivorsDistinct(marks: map<Token, Mark>, order: seq<Token>, outages: set<Token>)
    requires (forall t :: t in order ==> t in marks) && Distinct(order)
    ensures Distinct(Surviving(marks, order, outages))
  {
    hide Fails;
    if order != [] {
      var n := |order| - 1;
      SurvivorsDistinct(marks, order[..n], outages);
      LastIsNew(order);
      var before := Surviving(marks, order[..n], outages);
      if !Fails(marks, order[n], outages) {
        DistinctSnoc(before, order[n]);
      }
    }
  }

  lemma LastIsNew(order: seq<Token>)
    requires order != [] && Distinct(order)
    ensures order[|order| - 1] !in order[..|order| - 1]
  {
  }

  lemma DistinctSnoc(order: seq<Token>, t: Token)
    requires Distinct(order) && t !in order
    ensures Distinct(order + [t])
  {
  }

  /** The examined events a replay counts as applied: readable, not rejected, and of a mapped escrow. */
  function AppliedIn(d: Deployment, s: Store, order: seq<Token>, outages: set<Token>): nat
    requires forall t :: t in order ==> t in s.marks
  {
    if order == [] then 0
    else
      var n := |order| - 1;
      AppliedIn(d, s, order[..n], outages)
      + if Stored(s.marks[order[n]]).Some? && order[n] !in outages && !Stuck(d, s, order[n]) then 1 else 0
  }

  /** And those it counts as still waiting: readable, and rejected or of an unmapped escrow. */
  function WaitingIn(d: Deployment, s: Store, order: seq<Token>, outages: set<Token>): nat
    requires forall t :: t in order ==> t in s.marks
  {
    if order == [] then 0
    else
      var n := |order| - 1;
      WaitingIn(d, s, order[..n], outages)
      + if Stored(s.marks[order[n]]).Some? && (order[n] in outages || Stuck(d, s, order[n])) then 1 else 0
  }

  /** The payments those applications create and mark paid. */
  function ReplaySums(d: Deployment, s: Store, order: seq<Token>): (nat, nat)
    requires forall t :: t in order ==> t in s.marks
  {
    if order == [] then (0, 0)
    else
      var n := |order| - 1;
      var (created, paid) := ReplaySums(d, s, order[..n]);
      match ReplayOne(d, ReplayList(d, s, order[..n]), order[n]).0
      case Unattributed => (created, paid)
      case Attributed(c, p, _) => (created + c, paid + p)
  }

  /** Part way through a replay, a pending event reads as it did at the start and meets the same mapping. */
  lemma MidReplay(d: Deployment, s: Store, done: seq<Token>, t: Token)
    requires (forall u :: u in done ==> u in s.marks && !s.marks[u].attributed) && t in s.marks && t !in done
    requires Distinct(done)
    ensures
      var mid := ReplayList(d, s, done);
      && t in mid.marks && Stored(mid.marks[t]) == Stored(s.marks[t])
      && (Stored(s.marks[t]).Some? ==> (ReplayOne(d, mid, t).0.Attributed? <==> !Stuck(d, s, t)))
      && (Stored(s.marks[t]) == None ==> ReplayOne(d, mid, t).0 == Attributed(0, 0, 0))
  {
    hide Stored, Mapped, ApplyEvent;
    ReplayMarks(d, s, done, t);
    if Stored(s.marks[t]).Some? {
      var ev := Stored(s.marks[t]).value;
      Verdict(d, ReplayList(d, s, done), ev);
      ReplayListKeepsMapping(d, s, done, ev.escrowId);
    }
  }

  /** How a replay stands after the events of `order`: the store, and the four counts. */
  ghost predicate StandsAt(d: Deployment, s: Store, order: seq<Token>, outages: set<Token>,
                           now: Store, applied: nat, waiting: nat, created: nat, paid: nat) {
    && (forall t :: t in order ==> t in s.marks && !s.marks[t].attributed)
    && Distinct(order)
    && now == ReplayList(d, s, Surviving(s.marks, order, outages))
    && applied == AppliedIn(d, s, order, outages) && waiting == WaitingIn(d, s, order, outages)
    && (created, paid) == ReplaySums(d, s, Surviving(s.marks, order, outages))
  }

  lemma CountsSnoc(d: Deployment, s: Store, order: seq<Token>, t: Token, outages: set<Token>)
    requires (forall u :: u in order ==> u in s.marks) && t in s.marks
    ensures Surviving(s.marks, order + [t], outages) == Surviving(s.marks, order, outages) + if Fails(s.marks, t, outages) then [] else [t]
    ensures
      AppliedIn(d, s, order + [t], outages)
      == AppliedIn(d, s, order, outages) + if Stored(s.marks[t]).Some? && t !in outages && !Stuck(d, s, t) then 1 else 0
    ensures
      WaitingIn(d, s, order + [t], outages)
      == WaitingIn(d, s, order, outages) + if Stored(s.marks[t]).Some? && (t in outages || Stuck(d, s, t)) then 1 else 0
  {
    hide Stored, Stuck, Fails;
    assert (order + [t])[..|order|] == order;
  }

  lemma ReplaySnoc(d: Deployment, s: Store, done: seq<Token>, t: Token)
    requires (forall u :: u in done ==> u in s.marks) && t in s.marks
    ensures
      var (outcome, next) := ReplayOne(d, ReplayList(d, s, done), t);
      var (created, paid) := ReplaySums(d, s, done);
      && ReplayList(d, s, done + [t]) == next
      && ReplaySums(d, s, done + [t])
         == if outcome.Attributed? then (created + outcome.created, paid + outcome.paid) else (created, paid)
  {
    hide ReplayOne;
    assert (done + [t])[..|done|] == done;
  }

  lemma StandsAfterOne(d: Deployment, s: Store, order: seq<Token>, t: Token, outages: set<Token>,
                       now: Store, applied: nat, waiting: nat, created: nat, paid: nat)
    requires StandsAt(d, s, order, outages, now, applied, waiting, created, paid)
    requires t in s.marks && !s.marks[t].attributed && t !in order
    ensures t in now.marks && Stored(now.marks[t]) == Stored(s.marks[t])
    ensures
      var readable := Stored(s.marks[t]).Some?;
      if readable && t in outages then StandsAt(d, s, order + [t], outages, now, applied, waiting + 1, created, paid)
      else
        var (outcome, next) := ReplayOne(d, now, t);
        if outcome.Attributed?
        then StandsAt(d, s, order + [t], outages, next, if readable then applied + 1 else applied, waiting,
                      created + outcome.created, paid + outcome.paid)
        else StandsAt(d, s, order + [t], outages, next, applied, waiting + 1, created, paid)
  {
    hide Stored, Stuck, ReplayOne, ReplayList, Surviving, AppliedIn, WaitingIn, ReplaySums, Distinct;
    var done := Surviving(s.marks, order, outages);
    SurvivorsDistinct(s.marks, order, outages);
    DistinctSnoc(order, t);
    MidReplay(d, s, done, t);
    UnreadableIsNotStuck(d, s, t);
    CountsSnoc(d, s, order, t, outages);
    ReplaySnoc(d, s, done, t);
    assert done + [] == done;
  }

  lemma UnreadableIsNotStuck(d: Deployment, s: Store, t: Token)
    requires t in s.marks
    ensures Stored(s.marks[t]) == None ==> !Stuck(d, s, t)
  {
    hide Stored;
  }

  lemma StandsAtStart(d: Deployment, s: Store, outages: set<Token>)
    ensures StandsAt(d, s, [], outages, s, 0, 0, 0, 0)
  {
  }

  /** A replay that stands after the first `k` examined markers has ended there: the list is over, or the next one breaks it. */
  lemma StandsAtEnd(d: Deployment, s: Store, limit: nat, k: nat, outages: set<Token>,
                    now: Store, applied: nat, waiting: nat, created: nat, paid: nat)
    requires k <= |Examined(d, s, limit)|
    requires StandsAt(d, s, Examined(d, s, limit)[..k], outages, now, applied, waiting, created, paid)
    requires forall t :: t in Examined(d, s, limit) ==> t in s.marks
    requires forall i :: 0 <= i < k ==> !Breaks(s.marks, Examined(d, s, limit)[i], outages)
    requires k < |Examined(d, s, limit)| ==> Breaks(s.marks, Examined(d, s, limit)[k], outages)
    ensures
      var pending := Examined(d, s, limit);
      var done := Attempted(s.marks, pending, outages);
      && done == pending[..k]
      && now == ReplayList(d, s, Surviving(s.marks, done, outages))
      && (outages == {} ==> k == |pending| && now == Replay(d, s, limit))
      && applied == AppliedIn(d, s, done, outages) && waiting == WaitingIn(d, s, done, outages)
      && (created, paid) == ReplaySums(d, s, Surviving(s.marks, done, outages))
  {
    hide Examined, ReplayOne, Breaks, Stored;
    var pending := Examined(d, s, limit);
    AttemptedExactly(s.marks, pending, outages, k);
    assert Attempted(s.marks, pending, outages) == pending[..k];
    if outages == {} {
      NoOutageNoBreak(s.marks, pending);
      AllSurvive(s.marks, pending);
    }
  }

  // ----- and it does starve -----

  const EMPTY := Store(map[], {}, map[])

  /** One creation event per escrow 1..n, in ledger order. */
  function Creations(n: nat): seq<RawEvent> {
    seq(n, i requires 0 <= i => RawEvent(i, i, ContractEvent(EscrowSym, Created, [Num(i + 1), Addr(Address("manager")), Num(1)])))
  }

  lemma CreationParses(n: nat, i: nat)
    requires i < n
    ensures ParseEvent(Creations(n)[i].event) == Some(CreatedEvent(i + 1, Address("manager"), 1))
  {
  }

  lemma CreationWaits(d: Deployment, v: View, n: nat, i: nat)
    requires i < n && v.escrow.deployment == d
    ensures
      var s := Claim(IngestAll(d, EMPTY, Creations(n)).1, n, v);
      && i in s.marks && s.marks[i].ledger == i && i in Unapplied(d, s)
      && (Stuck(d, s, i) <==> i + 1 != n)
  {
    hide IngestAll, ParseEvent, AsObject, Stored;
    var s0, raws := EMPTY, Creations(n);
    MarksAfter(d, s0, raws);
    IngestAllKeeps(d, s0, raws, i + 1, i);
    CreationParses(n, i);
    assert raws[i] in raws;
    var s := Claim(IngestAll(d, s0, raws).1, n, v);
    PayloadReadsBack(s.marks[i], CreatedEvent(i + 1, Address("manager"), 1));
  }

  /**
   * For every limit: with that many creations of unclaimed escrows ahead of it, a claimed escrow's own creation is never
   * applied, however often the replay runs.
   */
  lemma StarvationIsReached(d: Deployment, v: View, limit: nat)
    requires v.escrow.deployment == d
    ensures
      var s := Claim(IngestAll(d, EMPTY, Creations(limit + 1)).1, limit + 1, v);
      && limit in Unapplied(d, s) && !Stuck(d, s, limit) && |StuckBefore(d, s, limit)| >= limit
      && forall n: nat :: limit in Unapplied(d, Rounds(d, s, limit, n))
  {
    hide IngestAll, Rounds, Stuck, Creations;
    var s := Claim(IngestAll(d, EMPTY, Creations(limit + 1)).1, limit + 1, v);
    CreationWaits(d, v, limit + 1, limit);
    var ahead: seq<Token> := seq(limit, i => i);
    forall i | i in ahead ensures i in StuckBefore(d, s, limit) {
      CreationWaits(d, v, limit + 1, i);
    }
    DistinctSize(ahead, StuckBefore(d, s, limit));
    forall n: nat ensures limit in Unapplied(d, Rounds(d, s, limit, n)) {
      Starves(d, s, limit, n, limit);
    }
  }
}
