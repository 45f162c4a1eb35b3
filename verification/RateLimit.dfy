/** The fixed-window rate limiter, with its periodic cleanup of expired buckets. */
module RateLimit {
  import opened Prelude

  datatype Bucket = Bucket(count: int, resetAt: int)

  /** Whether the call may proceed, how many are left, and the seconds until the window resets. */
  datatype Verdict = Verdict(ok: bool, remaining: int, retryAfter: int)

  type Buckets = map<string, Bucket>

  const CLEANUP_EVERY: nat := 1000

  /** Milliseconds to whole seconds, rounding up. */
  function CeilSeconds(ms: int): int {
    -((-ms) / 1000)
  }

  /** One call against one key's bucket. */
  function Admit(b: Option<Bucket>, limit: int, window: int, now: int): (Verdict, Bucket) {
    if b == None || now > b.value.resetAt then (Verdict(true, limit - 1, 0), Bucket(1, now + window))
    else if b.value.count >= limit then (Verdict(false, 0, CeilSeconds(b.value.resetAt - now)), b.value)
    else (Verdict(true, limit - (b.value.count + 1), 0), b.value.(count := b.value.count + 1))
  }

  function Lookup(buckets: Buckets, key: string): Option<Bucket> {
    if key in buckets then Some(buckets[key]) else None
  }

  function Unexpired(buckets: Buckets, now: int): Buckets {
    map k | k in buckets && now <= buckets[k].resetAt :: buckets[k]
  }

  /** One request; the clock is read once for the cleanup and again for the decision. */
  datatype Call = Call(key: string, limit: int, window: int, cleanupAt: int, now: int)

  datatype Limiter = Limiter(buckets: Buckets, calls: nat)

  function Limit(s: Limiter, c: Call): (Verdict, Limiter) {
    var due := s.calls + 1 >= CLEANUP_EVERY;
    var kept := if due then Unexpired(s.buckets, c.cleanupAt) else s.buckets;
    var (v, b) := Admit(Lookup(kept, c.key), c.limit, c.window, c.now);
    (v, Limiter(kept[c.key := b], if due then 0 else s.calls + 1))
  }

  class RateLimiter {
    var buckets: Buckets
    var callsSinceCleanup: nat

    function Now(): Limiter
      reads this
    {
      Limiter(buckets, callsSinceCleanup)
    }

    constructor ()
      ensures Now() == Limiter(map[], 0)
    {
      buckets, callsSinceCleanup := map[], 0;
    }

    method CleanupExpiredBuckets(now: int)
      modifies this`buckets
      ensures buckets == Unexpired(old(buckets), now)
    {
      ghost var was := buckets;
      var left := buckets.Keys;
      while left != {}
        invariant left <= was.Keys
        invariant forall k :: k in buckets <==> k in was && (k in left || now <= was[k].resetAt)
        invariant forall k :: k in buckets ==> buckets[k] == was[k]
        decreases |left|
      {
        var key :| key in left;
        if now > buckets[key].resetAt {
          buckets := buckets - {key};
        }
        left := left - {key};
      }
    }

    method Request(c: Call) returns (v: Verdict)
      modifies this
      ensures (v, Now()) == Limit(old(Now()), c)
    {
      callsSinceCleanup := callsSinceCleanup + 1;
      if callsSinceCleanup >= CLEANUP_EVERY {
        callsSinceCleanup := 0;
        CleanupExpiredBuckets(c.cleanupAt);
      }
      if c.key !in buckets || c.now > buckets[c.key].resetAt {
        buckets := buckets[c.key := Bucket(1, c.now + c.window)];
        return Verdict(true, c.limit - 1, 0);
      }
      var b := buckets[c.key];
      if b.count >= c.limit {
        assert buckets[c.key := b] == buckets;
        return Verdict(false, 0, CeilSeconds(b.resetAt - c.now));
      }
      buckets := buckets[c.key := b.(count := b.count + 1)];
      return Verdict(true, c.limit - (b.count + 1), 0);
    }
  }

  // ----- runs -----

  /** The clock never goes back. */
  ghost predicate Monotone(calls: seq<Call>) {
    && (forall i :: 0 <= i < |calls| ==> calls[i].cleanupAt <= calls[i].now)
    && (forall i, j :: 0 <= i < j < |calls| ==> calls[i].now <= calls[j].cleanupAt)
  }

  function Run(calls: seq<Call>): (seq<Verdict>, Limiter) {
    if calls == [] then ([], Limiter(map[], 0))
    else
      var (vs, s) := Run(calls[..|calls| - 1]);
      var (v, s') := Limit(s, calls[|calls| - 1]);
      (vs + [v], s')
  }

  /** The same limiter without any cleanup. */
  function RunPlain(calls: seq<Call>): (seq<Verdict>, Buckets) {
    if calls == [] then ([], map[])
    else
      var c := calls[|calls| - 1];
      var (vs, buckets) := RunPlain(calls[..|calls| - 1]);
      var (v, b) := Admit(Lookup(buckets, c.key), c.limit, c.window, c.now);
      (vs + [v], buckets[c.key := b])
  }

  /** Only buckets already expired at `now` may be missing. */
  ghost predicate Cleaned(kept: Buckets, all: Buckets, now: int) {
    && (forall k :: k in kept ==> k in all && kept[k] == all[k])
    && (forall k :: k in all && k !in kept ==> now > all[k].resetAt)
  }

  lemma CleanedStays(kept: Buckets, all: Buckets, was: int, at: int, now: int)
    requires Cleaned(kept, all, was) && was <= at <= now
    ensures Cleaned(kept, all, now) && Cleaned(Unexpired(kept, at), all, now)
  {
  }

  lemma CleanedAdmits(kept: Buckets, all: Buckets, c: Call)
    requires Cleaned(kept, all, c.now)
    ensures Admit(Lookup(kept, c.key), c.limit, c.window, c.now) == Admit(Lookup(all, c.key), c.limit, c.window, c.now)
    ensures
      var b := Admit(Lookup(kept, c.key), c.limit, c.window, c.now).1;
      Cleaned(kept[c.key := b], all[c.key := b], c.now)
  {
  }

  /** Cleanup is invisible: every call gets the answer it would have had if nothing were ever cleaned up. */
  lemma {:induction false} CleanupIsInvisible(calls: seq<Call>)
    requires Monotone(calls)
    ensures Run(calls).0 == RunPlain(calls).0
    ensures calls != [] ==> Cleaned(Run(calls).1.buckets, RunPlain(calls).1, calls[|calls| - 1].now)
  {
    hide Unexpired, Admit;
    if calls != [] {
      var n := |calls| - 1;
      var front, c := calls[..n], calls[n];
      CleanupIsInvisible(front);
      var kept, all := Run(front).1.buckets, RunPlain(front).1;
      var was := if front == [] then c.cleanupAt else front[|front| - 1].now;
      assert Cleaned(kept, all, was);
      CleanedStays(kept, all, was, c.cleanupAt, c.now);
      CleanedAdmits(kept, all, c);
      CleanedAdmits(Unexpired(kept, c.cleanupAt), all, c);
      hide Cleaned;
    }
  }

  // ----- the bound -----

  /** This key's calls all use the same limit and window. */
  ghost predicate Fixed(calls: seq<Call>, key: string, limit: int, window: int) {
    forall i :: 0 <= i < |calls| && calls[i].key == key ==> calls[i].limit == limit && calls[i].window == window
  }

  /** How many of the key's calls were accepted within `[from, from + window]`. */
  function AcceptedIn(calls: seq<Call>, key: string, from: int, window: int): nat {
    if calls == [] then 0
    else
      var n := |calls| - 1;
      var c := calls[n];
      var v := Admit(Lookup(RunPlain(calls[..n]).1, c.key), c.limit, c.window, c.now).0;
      AcceptedIn(calls[..n], key, from, window) + if c.key == key && v.ok && from <= c.now <= from + window then 1 else 0
  }

  /**
   * What the key's current bucket, opened at `resetAt - window`, says of the calls accepted so far in a span: none if
   * the span starts after it; its own but for the opening call if the span starts inside it; its own and one bucket's
   * before it, again but for an opening call, if it opened inside the span.
   */
  ghost predicate Consistent(b: Option<Bucket>, accepted: nat, most: int, from: int, window: int) {
    match b
    case None => accepted == 0
    case Some(bucket) =>
      var start := bucket.resetAt - window;
      && 1 <= bucket.count <= most
      && (from > bucket.resetAt ==> accepted == 0)
      && (start < from <= bucket.resetAt ==> accepted <= bucket.count - 1)
      && (from <= start <= from + window ==> accepted <= most - 1 + bucket.count)
      && accepted <= 2 * most - 1
  }

  lemma AdmitConsistent(b: Option<Bucket>, accepted: nat, limit: int, from: int, window: int, now: int)
    requires window >= 0 && Consistent(b, accepted, Max(limit, 1), from, window)
    requires b.Some? ==> b.value.resetAt - window <= now
    ensures
      var (v, b') := Admit(b, limit, window, now);
      && Consistent(Some(b'), accepted + (if v.ok && from <= now <= from + window then 1 else 0), Max(limit, 1), from, window)
      && b'.resetAt - window <= now
  {
  }

  lemma {:induction false} SpanConsistent(calls: seq<Call>, key: string, limit: int, window: int, from: int)
    requires Monotone(calls) && Fixed(calls, key, limit, window) && window >= 0
    ensures Consistent(Lookup(RunPlain(calls).1, key), AcceptedIn(calls, key, from, window), Max(limit, 1), from, window)
    ensures
      var b := Lookup(RunPlain(calls).1, key);
      b.Some? ==> calls != [] && b.value.resetAt - window <= calls[|calls| - 1].now
  {
    hide Admit, Consistent;
    if calls == [] {
      EmptyConsistent(Max(limit, 1), from, window);
    } else {
      var n := |calls| - 1;
      var front, c := calls[..n], calls[n];
      SpanConsistent(front, key, limit, window, from);
      var b := Lookup(RunPlain(front).1, key);
      if front != [] {
        assert front[n - 1].now <= c.now;
      }
      if c.key == key {
        AdmitConsistent(b, AcceptedIn(front, key, from, window), limit, from, window, c.now);
      }
    }
  }

  lemma EmptyConsistent(most: int, from: int, window: int)
    ensures Consistent(None, 0, most, from, window)
  {
  }

  /**
   * Any span of one window length contains fewer than twice the limit of a key's accepted calls (fewer than twice
   * one, for a limit below one: a fresh window always admits its first call).
   */
  lemma FewerThanTwiceTheLimit(calls: seq<Call>, key: string, limit: int, window: int, from: int)
    requires Monotone(calls) && Fixed(calls, key, limit, window) && window >= 0
    ensures AcceptedIn(calls, key, from, window) < 2 * Max(limit, 1)
  {
    SpanConsistent(calls, key, limit, window, from);
    hide RunPlain, AcceptedIn;
  }

  /** The burst that reaches the bound: one call opens a bucket, the rest of it comes as the bucket ends, a full one follows. */
  function BurstTime(limit: nat, window: nat, i: nat): nat {
    if i == 0 then 0 else if i < limit then window else window + 1
  }

  function Burst(key: string, limit: nat, window: nat, n: nat): seq<Call> {
    seq(n, i requires 0 <= i => Call(key, limit, window, BurstTime(limit, window, i), BurstTime(limit, window, i)))
  }

  /** After `n` calls of the burst every one was accepted, and all but the first fall in the span. */
  lemma {:induction false} BurstSoFar(key: string, limit: nat, window: nat, n: nat)
    requires limit >= 1 && window >= 1 && n <= 2 * limit
    ensures
      var calls := Burst(key, limit, window, n);
      && Lookup(RunPlain(calls).1, key)
         == (if n == 0 then None else if n <= limit then Some(Bucket(n, window)) else Some(Bucket(n - limit, 2 * window + 1)))
      && AcceptedIn(calls, key, window, window) == if n == 0 then 0 else n - 1
  {
    hide RunPlain, AcceptedIn;
    var calls := Burst(key, limit, window, n);
    if n == 0 {
      OneMore([], Call(key, limit, window, 0, 0), key, window, window);
      assert calls == [];
    } else {
      var front := Burst(key, limit, window, n - 1);
      BurstSoFar(key, limit, window, n - 1);
      OneMore(front, calls[n - 1], key, window, window);
      assert front + [calls[n - 1]] == calls;
    }
  }

  /** And no smaller bound holds: for every limit and window a burst puts one less than twice the limit into one span. */
  lemma TheBoundIsReached(key: string, limit: nat, window: nat)
    requires limit >= 1 && window >= 1
    ensures
      var calls := Burst(key, limit, window, 2 * limit);
      && Monotone(calls) && Fixed(calls, key, limit, window)
      && AcceptedIn(calls, key, window, window) == 2 * limit - 1
  {
    BurstSoFar(key, limit, window, 2 * limit);
    hide RunPlain, AcceptedIn;
  }

  /** One more call: its bucket and the count so far. */
  lemma OneMore(calls: seq<Call>, c: Call, key: string, from: int, window: int)
    requires c.key == key
    ensures
      var (v, b) := Admit(Lookup(RunPlain(calls).1, key), c.limit, c.window, c.now);
      && Lookup(RunPlain(calls + [c]).1, key) == Some(b)
      && AcceptedIn(calls + [c], key, from, window)
         == AcceptedIn(calls, key, from, window) + if v.ok && from <= c.now <= from + window then 1 else 0
    ensures RunPlain([]).1 == map[] && AcceptedIn([], key, from, window) == 0
  {
    hide Admit;
    assert (calls + [c])[..|calls|] == calls;
  }

  // ----- what the answer promises -----

  /** The bucket after more calls on the same key. */
  function AfterMore(b: Bucket, limit: int, window: int, times: seq<int>): Bucket {
    if times == [] then b else Admit(Some(AfterMore(b, limit, window, times[..|times| - 1])), limit, window, times[|times| - 1]).1
  }

  lemma {:induction false} CountsUp(b: Bucket, limit: int, window: int, times: seq<int>)
    requires b.count <= limit && forall i :: 0 <= i < |times| ==> times[i] <= b.resetAt
    ensures
      AfterMore(b, limit, window, times) == b.(count := if b.count + |times| <= limit then b.count + |times| else limit)
  {
    if times != [] {
      CountsUp(b, limit, window, times[..|times| - 1]);
    }
  }

  /**
   * `remaining` is the truth: after an accepted call, of further calls before the window resets, exactly that many are
   * accepted, and then every one is refused.
   */
  lemma RemainingIsTrue(b: Option<Bucket>, limit: int, window: int, now: int, times: seq<int>, t: int)
    requires limit >= 1 && window >= 0 && (b.Some? ==> b.value.count <= limit) && Admit(b, limit, window, now).0.ok
    requires
      var reset := Admit(b, limit, window, now).1.resetAt;
      t <= reset && forall i :: 0 <= i < |times| ==> times[i] <= reset
    ensures
      var (v, b') := Admit(b, limit, window, now);
      Admit(Some(AfterMore(b', limit, window, times)), limit, window, t).0.ok <==> |times| < v.remaining
  {
    CountsUp(Admit(b, limit, window, now).1, limit, window, times);
  }

  /**
   * `retryAfter` is the time to the reset in whole seconds, rounded up, and a refused caller that waits exactly that long is
   * accepted if and only if the time to the reset was not a whole number of seconds: at the reset itself the window still
   * stands. Until then every call is refused, and after it the next is accepted.
   */
  lemma WaitingExactly(b: Bucket, limit: int, window: int, now: int, t: int)
    requires limit >= 1 && !Admit(Some(b), limit, window, now).0.ok
    ensures
      var v := Admit(Some(b), limit, window, now).0;
      && v.retryAfter >= 0 && v.remaining == 0
      && b.resetAt <= now + 1000 * v.retryAfter < b.resetAt + 1000
      && (Admit(Some(b), limit, window, now + 1000 * v.retryAfter).0.ok <==> (b.resetAt - now) % 1000 != 0)
      && (Admit(Some(b), limit, window, t).0.ok <==> t > b.resetAt)
  {
  }

  /** An accepted call opens a window of its own or counts in the standing one, up to the limit; a refused one changes nothing. */
  lemma BucketExactly(b: Option<Bucket>, limit: int, window: int, now: int)
    ensures
      var (v, b') := Admit(b, limit, window, now);
      var opens := b == None || now > b.value.resetAt;
      && (v.ok <==> opens || b.value.count < limit)
      && (b' == if opens then Bucket(1, now + window) else if v.ok then Bucket(b.value.count + 1, b.value.resetAt) else b.value)
      && (v.ok ==> v.remaining == limit - b'.count && v.retryAfter == 0)
  {
  }

  // ----- memory -----

  /** The cleanup runs on every thousandth call. */
  lemma {:induction false} CleanedEveryThousand(calls: seq<Call>)
    ensures Run(calls).1.calls == |calls| % CLEANUP_EVERY
    ensures
      calls != [] && |calls| % CLEANUP_EVERY == 0 ==>
        var last, kept := calls[|calls| - 1], Run(calls).1.buckets;
        forall k :: k in kept && k != last.key ==> last.cleanupAt <= kept[k].resetAt
  {
    hide Admit;
    if calls != [] {
      CleanedEveryThousand(calls[..|calls| - 1]);
    }
  }
}
