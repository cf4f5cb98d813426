/** Token buckets, and one bucket per address with idle ones swept away. Time is in seconds. */
module RateLimit {
  import opened Prelude

  const SWEEP_INTERVAL := 60.0

  /** last is None before the first call. */
  datatype Bucket = Bucket(tokens: real, last: Option<real>)

  datatype Limits = Limits(rate: real, burst: real) {
    predicate Sane() { rate > 0.0 && burst >= 0.0 }
  }

  const Unused := Bucket(0.0, None)

  function Least(a: real, b: real): real { if a < b then a else b }

  /** What the rate adds in the time passed. */
  function Earn(passed: real, rate: real): real { passed * rate }

  /** The tokens there are at now, before one is taken. */
  function Refilled(b: Bucket, now: real, l: Limits): real {
    match b.last
    case None => l.burst
    case Some(last) => if now - last > 0.0 then Least(l.burst, b.tokens + Earn(now - last, l.rate)) else b.tokens
  }

  function Accepts(b: Bucket, now: real, l: Limits): bool { Refilled(b, now, l) >= 1.0 }

  /** The bucket after a call at now. */
  function Called(b: Bucket, now: real, l: Limits): Bucket {
    var tokens := Refilled(b, now, l);
    Bucket(if tokens < 1.0 then tokens else tokens - 1.0, Some(now))
  }

  class TokenBucket {
    var tokens: real
    var last: Option<real>

    function State(): Bucket
      reads this
    {
      Bucket(tokens, last)
    }

    constructor ()
      ensures State() == Unused
    {
      tokens, last := 0.0, None;
    }

    /** Takes one token if there is one, refilling first. */
    method Allow(now: real, l: Limits) returns (ok: bool)
      modifies this
      ensures ok == Accepts(old(State()), now, l)
      ensures State() == Called(old(State()), now, l)
    {
      hide Earn;
      if last.None? {
        tokens := l.burst;
      } else {
        var elapsed := now - last.value;
        if elapsed > 0.0 { tokens := Least(l.burst, tokens + Earn(elapsed, l.rate)); }
      }
      last := Some(now);
      if tokens < 1.0 { return false; }
      tokens := tokens - 1.0;
      ok := true;
    }
  }

  // The bound, both ways.

  /** What a bucket never leaves: between nothing and a full burst. */
  predicate InRange(b: Bucket, l: Limits) {
    b.last.Some? ==> 0.0 <= b.tokens <= l.burst
  }

  function After(b: Bucket, times: seq<real>, n: nat, l: Limits): Bucket
    requires n <= |times|
  {
    if n == 0 then b else Called(After(b, times, n - 1, l), times[n - 1], l)
  }

  function Accepted(b: Bucket, times: seq<real>, n: nat, l: Limits): nat
    requires n <= |times|
  {
    if n == 0 then 0 else
      Accepted(b, times, n - 1, l) + if Accepts(After(b, times, n - 1, l), times[n - 1], l) then 1 else 0
  }

  ghost predicate Nondecreasing(times: seq<real>) {
    forall i, j :: 0 <= i <= j < |times| ==> times[i] <= times[j]
  }

  function One(accepted: bool): real { if accepted then 1.0 else 0.0 }

  lemma Earned(passed: real, rate: real)
    requires rate > 0.0
    ensures passed >= 0.0 ==> Earn(passed, rate) >= 0.0
    ensures passed <= 0.0 ==> Earn(passed, rate) <= 0.0
  {
  }

  /** The step from one time to the next, when it goes forward. */
  function Forward(from: real, to: real): real { if to > from then to - from else 0.0 }

  /** The forward steps among the first n times, added up; steps back count nothing. */
  function ForwardTotal(times: seq<real>, n: nat): real
    requires n <= |times|
  {
    if n <= 1 then 0.0 else ForwardTotal(times, n - 1) + Forward(times[n - 2], times[n - 1])
  }

  /** One call never leaves more than there was and what the time since has earned. */
  lemma CallIsPaid(b: Bucket, now: real, l: Limits)
    requires l.Sane() && InRange(b, l)
    ensures InRange(Called(b, now, l), l)
    ensures Called(b, now, l).tokens + One(Accepts(b, now, l)) <= l.burst
    ensures b.last.Some? ==>
      Called(b, now, l).tokens + One(Accepts(b, now, l)) <= b.tokens + Earn(Forward(b.last.value, now), l.rate)
  {
    hide Earn;
    if b.last.Some? { Earned(now - b.last.value, l.rate); }
    Earned(0.0, l.rate);
  }

  lemma EarnedInTwo(a: real, b: real, rate: real)
    ensures Earn(a + b, rate) == Earn(a, rate) + Earn(b, rate)
  {
  }

  /** Tokens left and calls accepted are paid for by the burst and the time that has passed. */
  lemma {:induction false} Paid(b: Bucket, times: seq<real>, n: nat, l: Limits)
    requires l.Sane() && InRange(b, l) && 0 < n <= |times|
    ensures InRange(After(b, times, n, l), l) && After(b, times, n, l).last == Some(times[n - 1])
    ensures After(b, times, n, l).tokens + Accepted(b, times, n, l) as real <= l.burst + Earn(ForwardTotal(times, n), l.rate)
  {
    hide InRange, Refilled, Accepts, Earn, Forward;
    var before := After(b, times, n - 1, l);
    if n == 1 {
      CallIsPaid(b, times[0], l);
      Earned(0.0, l.rate);
    } else {
      Paid(b, times, n - 1, l);
      CallIsPaid(before, times[n - 1], l);
      EarnedInTwo(ForwardTotal(times, n - 1), Forward(times[n - 2], times[n - 1]), l.rate);
    }
  }

  /** However its clock runs, a stretch of calls has no more accepted than a burst and what the rate adds
      over the steps the clock takes forward. */
  lemma AtMostBurstAndForwardSteps(b: Bucket, times: seq<real>, l: Limits)
    requires l.Sane() && InRange(b, l) && times != []
    ensures Accepted(b, times, |times|, l) as real <= l.burst + Earn(ForwardTotal(times, |times|), l.rate)
  {
    hide Accepts, Called, Earn;
    Paid(b, times, |times|, l);
    assert After(b, times, |times|, l).tokens >= 0.0;
  }

  lemma {:induction false} ForwardOnly(times: seq<real>, n: nat)
    requires Nondecreasing(times) && 0 < n <= |times|
    ensures ForwardTotal(times, n) == times[n - 1] - times[0]
  {
    if n > 1 { ForwardOnly(times, n - 1); }
  }

  /** However a stretch of calls begins, it has no more accepted than a burst and what the rate adds meanwhile. */
  lemma AtMostBurstAndRate(b: Bucket, times: seq<real>, l: Limits)
    requires l.Sane() && InRange(b, l) && Nondecreasing(times) && times != []
    ensures Accepted(b, times, |times|, l) as real <= l.burst + Earn(times[|times| - 1] - times[0], l.rate)
  {
    hide Accepts, Called, Nondecreasing, Earn;
    AtMostBurstAndForwardSteps(b, times, l);
    ForwardOnly(times, |times|);
  }

  /** A call that comes long enough after the one before it is never refused, whatever happened earlier. */
  lemma {:induction false} SpacedIsAccepted(b: Bucket, times: seq<real>, n: nat, l: Limits)
    requires l.Sane() && l.burst >= 1.0 && InRange(b, l) && n < |times|
    requires var before := After(b, times, n, l).last; before.Some? ==> Earn(times[n] - before.value, l.rate) >= 1.0
    ensures Accepts(After(b, times, n, l), times[n], l)
  {
    hide Earn;
    AfterInRange(b, times, n, l);
    var before := After(b, times, n, l);
    if before.last.Some? { Earned(times[n] - before.last.value, l.rate); }
  }

  lemma {:induction false} AfterInRange(b: Bucket, times: seq<real>, n: nat, l: Limits)
    requires l.Sane() && InRange(b, l) && n <= |times|
    ensures InRange(After(b, times, n, l), l)
  {
    if n > 0 {
      AfterInRange(b, times, n - 1, l);
      CallIsPaid(After(b, times, n - 1, l), times[n - 1], l);
    }
  }

  /** The time from first to last is not enough for a clock that steps back: what it goes back is credited again
      on the way forward. */
  lemma BackwardsClockBreaksTheBound()
    ensures var l := Limits(1.0, 1.0);
      Accepted(Unused, [10.0, 0.0, 10.0], 3, l) == 2
  {
    var l, t := Limits(1.0, 1.0), [10.0, 0.0, 10.0];
    assert After(Unused, t, 1, l) == Bucket(0.0, Some(10.0)) && Accepted(Unused, t, 1, l) == 1;
    assert After(Unused, t, 2, l) == Bucket(0.0, Some(0.0)) && Accepted(Unused, t, 2, l) == 1;
  }

  // One bucket per address.

  /** The bucket has refilled completely. */
  predicate Full(b: Bucket, now: real, l: Limits) {
    b.last.None? || b.tokens + Earn(now - b.last.value, l.rate) >= l.burst
  }

  /** lastSweep is None until the map is made. */
  datatype Limiter = Limiter(buckets: map<string, Bucket>, lastSweep: Option<real>)

  const NoCalls := Limiter(map[], None)

  predicate SweepDue(s: Limiter, now: real) {
    s.lastSweep.Some? && now - s.lastSweep.value >= SWEEP_INTERVAL
  }

  function Swept(buckets: map<string, Bucket>, now: real, l: Limits): map<string, Bucket> {
    map k | k in buckets && !Full(buckets[k], now, l) :: buckets[k]
  }

  /** The buckets a call at now finds. */
  function Found(s: Limiter, now: real, l: Limits): map<string, Bucket> {
    if SweepDue(s, now) then Swept(s.buckets, now, l) else s.buckets
  }

  function BucketOf(buckets: map<string, Bucket>, ip: string): Bucket {
    if ip in buckets then buckets[ip] else Unused
  }

  function Admits(s: Limiter, ip: string, now: real, l: Limits): bool {
    Accepts(BucketOf(Found(s, now, l), ip), now, l)
  }

  function Counted(s: Limiter, ip: string, now: real, l: Limits): Limiter {
    var found := Found(s, now, l);
    Limiter(
      found[ip := Called(BucketOf(found, ip), now, l)],
      if s.lastSweep.None? || SweepDue(s, now) then Some(now) else s.lastSweep)
  }

  class IpBuckets {
    var buckets: map<string, TokenBucket>
    var lastSweep: Option<real>

    /** No two addresses share a bucket. */
    ghost predicate Valid()
      reads this
    {
      forall j, k :: j in buckets && k in buckets && buckets[j] == buckets[k] ==> j == k
    }

    ghost function Contents(): Limiter
      reads this, buckets.Values
    {
      Limiter(map k | k in buckets :: buckets[k].State(), lastSweep)
    }

    constructor ()
      ensures Valid() && Contents() == NoCalls
    {
      buckets, lastSweep := map[], None;
    }

    /** Drops every full bucket. */
    method Sweep(now: real, l: Limits)
      requires Valid()
      modifies `buckets
      ensures Valid() && buckets.Values <= old(buckets.Values)
      ensures Contents().buckets == Swept(old(Contents().buckets), now, l)
    {
      hide Full;
      ghost var before := buckets;
      var left := buckets.Keys;
      while left != {}
        invariant forall k :: k in left ==> k in buckets
        invariant forall k :: k in buckets ==> k in before && buckets[k] == before[k]
        invariant forall k :: k in before ==> (k in buckets <==> k in left || !Full(before[k].State(), now, l))
        decreases |left|
      {
        var k :| k in left;
        left := left - {k};
        if Full(buckets[k].State(), now, l) {
          buckets := map j | j in buckets && j != k :: buckets[j];
        }
      }
    }

    /** The bucket of an address, made on its first call. */
    method Lookup(ip: string) returns (b: TokenBucket)
      requires Valid()
      modifies `buckets
      ensures Valid() && ip in buckets && buckets[ip] == b && fresh(buckets.Values - old(buckets.Values))
      ensures Contents().buckets == old(Contents().buckets)[ip := BucketOf(old(Contents().buckets), ip)]
    {
      if ip !in buckets {
        b := new TokenBucket();
        buckets := buckets[ip := b];
      }
      b := buckets[ip];
    }

    /** The part under the map's own lock: sweeps when it is time, and finds or makes the bucket. */
    method Find(ip: string, now: real, l: Limits) returns (b: TokenBucket)
      requires Valid()
      modifies this
      ensures Valid() && ip in buckets && buckets[ip] == b && fresh(buckets.Values - old(buckets.Values))
      ensures var s, found := old(Contents()), Found(old(Contents()), now, l);
        Contents() == Limiter(
          found[ip := BucketOf(found, ip)], if s.lastSweep.None? || SweepDue(s, now) then Some(now) else s.lastSweep)
    {
      hide Full, Swept;
      if lastSweep.None? { lastSweep := Some(now); }
      if now - lastSweep.value >= SWEEP_INTERVAL {
        Sweep(now, l);
        lastSweep := Some(now);
      }
      assert Contents().buckets == Found(old(Contents()), now, l);
      b := Lookup(ip);
    }

    method Allow(ip: string, now: real, l: Limits) returns (ok: bool)
      requires Valid()
      modifies this, buckets.Values
      ensures Valid() && fresh(buckets.Values - old(buckets.Values))
      ensures ok == Admits(old(Contents()), ip, now, l)
      ensures Contents() == Counted(old(Contents()), ip, now, l)
    {
      hide Full, Swept, Refilled, Found, Accepts, Called;
      var b := Find(ip, now, l);
      ghost var between := Contents().buckets;
      ok := b.Allow(now, l);
      assert Contents().buckets == between[ip := Called(between[ip], now, l)];
    }
  }

  // Sweeping is invisible.

  /** Never-swept buckets, one for every address that ever called. */
  function PlainCounted(plain: map<string, Bucket>, ip: string, now: real, l: Limits): map<string, Bucket> {
    plain[ip := Called(BucketOf(plain, ip), now, l)]
  }

  datatype Call = Call(ip: string, now: real)

  function Sweeping(calls: seq<Call>, n: nat, l: Limits): Limiter
    requires n <= |calls|
  {
    if n == 0 then NoCalls else Counted(Sweeping(calls, n - 1, l), calls[n - 1].ip, calls[n - 1].now, l)
  }

  function Plain(calls: seq<Call>, n: nat, l: Limits): map<string, Bucket>
    requires n <= |calls|
  {
    if n == 0 then map[] else PlainCounted(Plain(calls, n - 1, l), calls[n - 1].ip, calls[n - 1].now, l)
  }

  /** b cannot be told from an unused bucket at now or later. */
  predicate Forgettable(b: Bucket, now: real, l: Limits) {
    b.last.Some? && b.last.value <= now && Full(b, now, l)
  }

  /** The swept buckets are the plain ones without some that can be forgotten. */
  ghost predicate Mirrors(swept: map<string, Bucket>, plain: map<string, Bucket>, now: real, l: Limits) {
    && (forall k :: k in swept ==> k in plain && swept[k] == plain[k])
    && (forall k :: k in plain && k !in swept ==> Forgettable(plain[k], now, l))
    && (forall k :: k in plain ==> InRange(plain[k], l) && plain[k].last.Some? && plain[k].last.value <= now)
  }

  lemma FullStaysFull(b: Bucket, now: real, later: real, l: Limits)
    requires l.Sane() && Forgettable(b, now, l) && now <= later
    ensures Forgettable(b, later, l)
  {
    hide Earn;
    EarnedInTwo(now - b.last.value, later - now, l.rate);
    Earned(later - now, l.rate);
  }

  /** A call finds a forgettable bucket just as it finds an unused one. */
  lemma ForgettableIsUnused(b: Bucket, now: real, l: Limits)
    requires l.Sane() && InRange(b, l) && Forgettable(b, now, l)
    ensures Refilled(b, now, l) == Refilled(Unused, now, l)
  {
    hide Earn;
    if now == b.last.value { Earned(0.0, l.rate); }
  }

  lemma MirrorsLater(swept: map<string, Bucket>, plain: map<string, Bucket>, now: real, later: real, l: Limits)
    requires l.Sane() && now <= later && Mirrors(swept, plain, now, l)
    ensures Mirrors(swept, plain, later, l) && Mirrors(Swept(swept, later, l), plain, later, l)
  {
    hide Full, InRange;
    forall k | k in plain && k !in swept ensures Forgettable(plain[k], later, l) {
      hide Forgettable;
      FullStaysFull(plain[k], now, later, l);
    }
  }

  lemma SameAnswer(swept: map<string, Bucket>, plain: map<string, Bucket>, ip: string, now: real, l: Limits)
    requires l.Sane() && Mirrors(swept, plain, now, l)
    ensures Accepts(BucketOf(swept, ip), now, l) == Accepts(BucketOf(plain, ip), now, l)
    ensures Called(BucketOf(swept, ip), now, l) == Called(BucketOf(plain, ip), now, l)
    ensures Mirrors(swept[ip := Called(BucketOf(swept, ip), now, l)], PlainCounted(plain, ip, now, l), now, l)
  {
    hide Full, Earn, Refilled;
    if ip in plain && ip !in swept { ForgettableIsUnused(plain[ip], now, l); }
    CalledIsInRange(BucketOf(plain, ip), now, l);
  }

  lemma CalledIsInRange(b: Bucket, now: real, l: Limits)
    requires l.Sane() && InRange(b, l)
    ensures InRange(Called(b, now, l), l)
  {
    CallIsPaid(b, now, l);
  }

  ghost predicate Ordered(calls: seq<Call>) {
    forall i, j :: 0 <= i <= j < |calls| ==> calls[i].now <= calls[j].now
  }

  lemma {:induction false} AlwaysMirrors(calls: seq<Call>, n: nat, l: Limits)
    requires l.Sane() && Ordered(calls) && 0 < n <= |calls|
    ensures Mirrors(Sweeping(calls, n, l).buckets, Plain(calls, n, l), calls[n - 1].now, l)
    decreases n, 0
  {
    hide Mirrors, Called;
    var c := calls[n - 1];
    var s, plain := Sweeping(calls, n - 1, l), Plain(calls, n - 1, l);
    MirrorsBefore(calls, n - 1, c.now, l);
    SameAnswer(Found(s, c.now, l), plain, c.ip, c.now, l);
  }

  lemma {:induction false} MirrorsBefore(calls: seq<Call>, n: nat, now: real, l: Limits)
    requires l.Sane() && Ordered(calls) && n <= |calls| && (n > 0 ==> calls[n - 1].now <= now)
    ensures Mirrors(Found(Sweeping(calls, n, l), now, l), Plain(calls, n, l), now, l)
    decreases n, 1
  {
    hide Swept, Called;
    if n > 0 {
      hide Mirrors;
      AlwaysMirrors(calls, n, l);
      MirrorsLater(Sweeping(calls, n, l).buckets, Plain(calls, n, l), calls[n - 1].now, now, l);
    }
  }

  /** Every call is answered as if no bucket were ever dropped. */
  lemma SweepingIsInvisible(calls: seq<Call>, n: nat, l: Limits)
    requires l.Sane() && Ordered(calls) && n < |calls|
    ensures Admits(Sweeping(calls, n, l), calls[n].ip, calls[n].now, l)
        <==> Accepts(BucketOf(Plain(calls, n, l), calls[n].ip), calls[n].now, l)
  {
    hide Mirrors, Found, Called, Accepts;
    MirrorsBefore(calls, n, calls[n].now, l);
    SameAnswer(Found(Sweeping(calls, n, l), calls[n].now, l), Plain(calls, n, l), calls[n].ip, calls[n].now, l);
  }

  /** A bucket that a sweep leaves in the map was used less than burst/rate seconds ago. */
  lemma SweptIsRecent(calls: seq<Call>, n: nat, now: real, l: Limits, ip: string)
    requires l.Sane() && Ordered(calls) && n <= |calls| && (n > 0 ==> calls[n - 1].now <= now)
    requires var s := Sweeping(calls, n, l); SweepDue(s, now) && ip in Found(s, now, l)
    ensures var b := Found(Sweeping(calls, n, l), now, l)[ip];
      b.last.Some? && now - b.last.value < l.burst / l.rate
  {
    hide InRange, Full, Forgettable, Sweeping, Plain;
    MirrorsBefore(calls, n, now, l);
    LeftIsRecent(Found(Sweeping(calls, n, l), now, l)[ip], now, l);
  }

  lemma LeftIsRecent(b: Bucket, now: real, l: Limits)
    requires l.Sane() && InRange(b, l) && b.last.Some? && !Full(b, now, l)
    ensures now - b.last.value < l.burst / l.rate
  {
    hide Earn;
    Quotient(now - b.last.value, l.rate, l.burst);
  }

  lemma Quotient(passed: real, rate: real, burst: real)
    requires rate > 0.0
    ensures passed >= burst / rate ==> Earn(passed, rate) >= burst
  {
    var q := burst / rate;
    assert q * rate == burst;
    if passed >= q { assert (passed - q) * rate >= 0.0; }
  }
}
