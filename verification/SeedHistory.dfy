/** Heartbeats, hourly buckets and incidents made from one list of outages. */
module SeedHistory {
  import opened Prelude
  import opened SeedGrid
  import opened SeedOutages

  const HOUR: nat := 3600 * SECOND

  // Beats.

  datatype Beat = Beat(ts: int, ok: bool, assessment: Assessment, failureKind: string, error: string, status: int)

  /** The heartbeat of one check; answer is the status code a passing check records. */
  function BeatAt(outages: seq<Outage>, m: Monitor, answer: int, d: nat, t: int): Beat
    requires d > 0
  {
    match OutageAt(outages, t)
    case Some(o) => Beat(t, false, OutageAssessment(o, m, d, t), o.cause, o.message, o.status)
    case None => Beat(t, true, Up, "", "", answer)
  }

  function BeatsOf(outages: seq<Outage>, m: Monitor, answer: int, d: nat, ts: seq<int>): (beats: seq<Beat>)
    requires d > 0
    ensures |beats| == |ts| && forall i :: 0 <= i < |ts| ==> beats[i] == BeatAt(outages, m, answer, d, ts[i])
  {
    seq(|ts|, i requires 0 <= i < |ts| => BeatAt(outages, m, answer, d, ts[i]))
  }

  method FindOutage(outages: seq<Outage>, t: int) returns (found: Option<Outage>)
    ensures found == OutageAt(outages, t)
  {
    for i := 0 to |outages|
      invariant OutageAt(outages, t) == OutageAt(outages[i..], t)
    {
      if outages[i].Covers(t) { return Some(outages[i]); }
      assert outages[i..][1..] == outages[i + 1..];
    }
    found := None;
  }

  /** One heartbeat for every check from `from` on and before `to`. */
  method BuildBeats(outages: seq<Outage>, m: Monitor, answer: int, from: int, to: int, d: nat) returns (out: seq<Beat>)
    requires d > 0
    ensures out == BeatsOf(outages, m, answer, d, Samples(from, to, d))
  {
    out := [];
    if from >= to { return; }
    var t := SampleAtOrAfter(from, d);
    ghost var done: seq<int> := [];
    while t < to
      invariant OnGrid(t, d)
      invariant Samples(from, to, d) == done + SamplesFrom(t, to, d)
      invariant out == BeatsOf(outages, m, answer, d, done)
      decreases Left(t, to)
    {
      var hb := Beat(t, true, Up, "", "", 0);
      var o := FindOutage(outages, t);
      if o.Some? {
        hb := Beat(t, false, OutageAssessment(o.value, m, d, t), o.value.cause, o.value.message, o.value.status);
      } else {
        hb := hb.(status := answer);
      }
      out := out + [hb];
      done := done + [t];
      GridStep(t, d);
      t := t + d;
    }
  }

  // Buckets.

  datatype Bucket = Bucket(hour: int, up: nat, down: nat, assessedUp: nat, assessedDown: nat, warning: nat)

  function Plus(b: Bucket, beat: Beat): Bucket {
    Bucket(
      b.hour,
      b.up + if beat.ok then 1 else 0,
      b.down + if beat.ok then 0 else 1,
      b.assessedUp + if beat.assessment.Up? then 1 else 0,
      b.assessedDown + if beat.assessment.Down? then 1 else 0,
      b.warning + if beat.assessment.Warning? then 1 else 0)
  }

  /** What the beats of one hour add up to. */
  function Tally(beats: seq<Beat>, hour: int): (b: Bucket)
    ensures b.hour == hour
  {
    if beats == [] then Bucket(hour, 0, 0, 0, 0, 0) else
      var last := beats[|beats| - 1];
      var b := Tally(beats[..|beats| - 1], hour);
      if Truncate(last.ts, HOUR) == hour then Plus(b, last) else b
  }

  /** The rollup of raw beats, hour by hour: an hour without a beat leaves no bucket. */
  function Rollup(beats: seq<Beat>, h: int, to: int): seq<Bucket>
    decreases Left(h, to)
  {
    if h >= to then [] else
      var b := Tally(beats, h);
      (if b.up + b.down == 0 then [] else [b]) + Rollup(beats, h + HOUR, to)
  }

  lemma {:induction false} TallyOutside(beats: seq<Beat>, hour: int)
    requires forall i :: 0 <= i < |beats| ==> Truncate(beats[i].ts, HOUR) != hour
    ensures Tally(beats, hour) == Bucket(hour, 0, 0, 0, 0, 0)
  {
    if beats != [] { TallyOutside(beats[..|beats| - 1], hour); }
  }

  lemma {:induction false} TallyBefore(a: seq<Beat>, b: seq<Beat>, hour: int)
    requires forall i :: 0 <= i < |a| ==> Truncate(a[i].ts, HOUR) != hour
    ensures Tally(a + b, hour) == Tally(b, hour)
  {
    if b == [] {
      assert a + b == a;
      TallyOutside(a, hour);
    } else {
      var front := b[..|b| - 1];
      assert (a + b)[..|a + b| - 1] == a + front;
      TallyBefore(a, front, hour);
    }
  }

  lemma {:induction false} TallyAfter(a: seq<Beat>, b: seq<Beat>, hour: int)
    requires forall i :: 0 <= i < |b| ==> Truncate(b[i].ts, HOUR) != hour
    ensures Tally(a + b, hour) == Tally(a, hour)
  {
    if b == [] {
      assert a + b == a;
    } else {
      var front := b[..|b| - 1];
      assert (a + b)[..|a + b| - 1] == a + front;
      TallyAfter(a, front, hour);
    }
  }

  function Later(a: int, b: int): int { if a < b then b else a }

  function Earlier(a: int, b: int): int { if a < b then a else b }

  lemma SameHour(t: int, h: int)
    requires OnGrid(h, HOUR)
    ensures Truncate(t, HOUR) == h <==> h <= t < h + HOUR
  {
    hide OnGrid, Truncate;
    if h <= t < h + HOUR { GridUnique(Truncate(t, HOUR), h, t - HOUR + 1, HOUR); }
  }

  /** The beats of an hour are the beats of the stretch of history inside it. */
  lemma TallyOfStretch(outages: seq<Outage>, m: Monitor, answer: int, from: int, to: int, d: nat, h: int)
    requires d > 0 && OnGrid(h, HOUR) && from < h + HOUR && h < to && from <= to
    ensures Tally(BeatsOf(outages, m, answer, d, Samples(from, to, d)), h)
         == Tally(BeatsOf(outages, m, answer, d, Samples(Later(h, from), Earlier(h + HOUR, to), d)), h)
  {
    hide OnGrid, Samples, BeatAt, Truncate;
    var lo, hi := Later(h, from), Earlier(h + HOUR, to);
    SamplesSplit(from, lo, to, d);
    SamplesSplit(lo, hi, to, d);
    var a := BeatsOf(outages, m, answer, d, Samples(from, lo, d));
    var b := BeatsOf(outages, m, answer, d, Samples(lo, hi, d));
    var c := BeatsOf(outages, m, answer, d, Samples(hi, to, d));
    assert BeatsOf(outages, m, answer, d, Samples(from, to, d)) == a + (b + c);
    BeatTimes(outages, m, answer, d, Samples(from, lo, d));
    BeatTimes(outages, m, answer, d, Samples(hi, to, d));
    forall i | 0 <= i < |a| ensures Truncate(a[i].ts, HOUR) != h { SameHour(a[i].ts, h); }
    forall i | 0 <= i < |c| ensures Truncate(c[i].ts, HOUR) != h { SameHour(c[i].ts, h); }
    TallyBefore(a, b + c, h);
    TallyAfter(b, c, h);
  }

  lemma BeatTimes(outages: seq<Outage>, m: Monitor, answer: int, d: nat, ts: seq<int>)
    requires d > 0
    ensures forall i :: 0 <= i < |ts| ==> BeatsOf(outages, m, answer, d, ts)[i].ts == ts[i]
  {
  }

  /** The counters after the checks done stand for the tally of their beats. */
  ghost predicate CountsAre(outages: seq<Outage>, m: Monitor, answer: int, d: nat, h: int, done: seq<int>,
                            beats: nat, down: nat, assessedDown: nat, warnings: nat)
    requires d > 0
  {
    beats >= down
    && Bucket(h, beats - down, down, beats - down, assessedDown, warnings) == Tally(BeatsOf(outages, m, answer, d, done), h)
  }

  /** One more check in the hour. */
  lemma CountOne(outages: seq<Outage>, m: Monitor, answer: int, d: nat, h: int, done: seq<int>,
                 beats: nat, down: nat, assessedDown: nat, warnings: nat, at: int)
    requires d > 0 && OnGrid(h, HOUR) && h <= at < h + HOUR
    requires CountsAre(outages, m, answer, d, h, done, beats, down, assessedDown, warnings)
    ensures var o := OutageAt(outages, at);
      if o.None? then CountsAre(outages, m, answer, d, h, done + [at], beats + 1, down, assessedDown, warnings)
      else if OutageAssessment(o.value, m, d, at).Down?
      then CountsAre(outages, m, answer, d, h, done + [at], beats + 1, down + 1, assessedDown + 1, warnings)
      else CountsAre(outages, m, answer, d, h, done + [at], beats + 1, down + 1, assessedDown, warnings + 1)
  {
    hide Truncate, Tally, BeatAt, OutageAt, OutageAssessment, OnGrid, BeatsOf;
    SameHour(at, h);
    TallyOneMore(outages, m, answer, d, done, at, h);
    BeatCounts(outages, m, answer, d, at);
  }

  /** The counters of one hour, as the inner loop of the rollup keeps them. */
  method CountHour(outages: seq<Outage>, m: Monitor, ghost answer: int, h: int, from: int, to: int, d: nat)
    returns (up: nat, down: nat, assessedDown: nat, warnings: nat)
    requires d > 0 && OnGrid(h, HOUR) && from < h + HOUR && h < to && from <= to
    ensures Bucket(h, up, down, up, assessedDown, warnings)
         == Tally(BeatsOf(outages, m, answer, d, Samples(Later(h, from), Earlier(h + HOUR, to), d)), h)
  {
    hide CountsAre, OutageAt, OutageAssessment, SampleAtOrAfter, OnGrid, Tally, BeatsOf;
    var first := SampleAtOrAfter(h, d);
    if first < from { first := SampleAtOrAfter(from, d); }
    FirstOfHour(h, from, d);
    var limit := Earlier(h + HOUR, to);
    var beats: nat := 0;
    down, assessedDown, warnings := 0, 0, 0;
    var at := first;
    ghost var done: seq<int> := [];
    NoCounts(outages, m, answer, d, h);
    while at < limit
      invariant OnGrid(at, d) && at >= first
      invariant Samples(Later(h, from), limit, d) == done + SamplesFrom(at, limit, d)
      invariant CountsAre(outages, m, answer, d, h, done, beats, down, assessedDown, warnings)
      decreases Left(at, limit)
    {
      CountOne(outages, m, answer, d, h, done, beats, down, assessedDown, warnings, at);
      beats := beats + 1;
      var o := FindOutage(outages, at);
      if o.Some? {
        down := down + 1;
        if OutageAssessment(o.value, m, d, at).Down? { assessedDown := assessedDown + 1; } else { warnings := warnings + 1; }
      }
      NextSample(done, at, limit, d);
      done := done + [at];
      at := at + d;
    }
    AllCounted(outages, m, answer, d, h, done, beats, down, assessedDown, warnings);
    up := beats - down;
    assert done == Samples(Later(h, from), limit, d);
  }

  lemma NextSample(done: seq<int>, at: int, limit: int, d: nat)
    requires d > 0 && OnGrid(at, d) && at < limit
    ensures OnGrid(at + d, d) && done + SamplesFrom(at, limit, d) == (done + [at]) + SamplesFrom(at + d, limit, d)
  {
    GridStep(at, d);
  }

  lemma NoCounts(outages: seq<Outage>, m: Monitor, answer: int, d: nat, h: int)
    requires d > 0
    ensures CountsAre(outages, m, answer, d, h, [], 0, 0, 0, 0)
  {
  }

  lemma AllCounted(outages: seq<Outage>, m: Monitor, answer: int, d: nat, h: int, done: seq<int>,
                   beats: nat, down: nat, assessedDown: nat, warnings: nat)
    requires d > 0 && CountsAre(outages, m, answer, d, h, done, beats, down, assessedDown, warnings)
    ensures beats >= down
    ensures Bucket(h, beats - down, down, beats - down, assessedDown, warnings) == Tally(BeatsOf(outages, m, answer, d, done), h)
  {
  }

  lemma BeatCounts(outages: seq<Outage>, m: Monitor, answer: int, d: nat, at: int)
    requires d > 0
    ensures var b, o := BeatAt(outages, m, answer, d, at), OutageAt(outages, at);
      if o.None? then b.ok && b.assessment.Up? else !b.ok && b.assessment == OutageAssessment(o.value, m, d, at) != Up
  {
  }

  lemma FirstOfHour(h: int, from: int, d: nat)
    requires d > 0
    ensures (if SampleAtOrAfter(h, d) < from then SampleAtOrAfter(from, d) else SampleAtOrAfter(h, d))
         == SampleAtOrAfter(Later(h, from), d)
  {
    hide OnGrid, SampleAtOrAfter;
    var s := SampleAtOrAfter(h, d);
    if h < from && s >= from {
      SampleMonotone(h, from, d);
      SampleBound(s, from, d);
    }
  }

  lemma TallyOneMore(outages: seq<Outage>, m: Monitor, answer: int, d: nat, done: seq<int>, at: int, h: int)
    requires d > 0 && Truncate(at, HOUR) == h
    ensures Tally(BeatsOf(outages, m, answer, d, done + [at]), h)
         == Plus(Tally(BeatsOf(outages, m, answer, d, done), h), BeatAt(outages, m, answer, d, at))
  {
    hide Truncate, OnGrid;
    var all := BeatsOf(outages, m, answer, d, done + [at]);
    assert all[..|all| - 1] == BeatsOf(outages, m, answer, d, done);
    assert all[|all| - 1] == BeatAt(outages, m, answer, d, at);
  }

  /** The rollup computed straight from the outages is the rollup of the beats there would have been. */
  method BuildBuckets(outages: seq<Outage>, m: Monitor, ghost answer: int, from: int, to: int, d: nat)
    returns (out: seq<Bucket>)
    requires d > 0
    ensures out == Rollup(BeatsOf(outages, m, answer, d, Samples(from, to, d)), Truncate(from, HOUR), to)
  {
    hide SampleAtOrAfter, Samples, BeatAt, BeatsOf, Tally, Truncate, OnGrid;
    out := [];
    var h := Truncate(from, HOUR);
    ghost var raw := BeatsOf(outages, m, answer, d, Samples(from, to, d));
    if from >= to {
      NoRollup(outages, m, answer, from, to, d);
      return;
    }
    while h < to
      invariant OnGrid(h, HOUR) && from < h + HOUR
      invariant Rollup(raw, Truncate(from, HOUR), to) == out + Rollup(raw, h, to)
      decreases Left(h, to)
    {
      var up, down, assessedDown, warnings := CountHour(outages, m, answer, h, from, to, d);
      TallyOfStretch(outages, m, answer, from, to, d, h);
      if up + down != 0 {
        out := out + [Bucket(h, up, down, up, assessedDown, warnings)];
      }
      GridStep(h, HOUR);
      h := h + HOUR;
    }
  }

  /** An empty stretch of history has nothing to roll up, even inside one hour. */
  lemma NoRollup(outages: seq<Outage>, m: Monitor, answer: int, from: int, to: int, d: nat)
    requires d > 0 && from >= to
    ensures Rollup(BeatsOf(outages, m, answer, d, Samples(from, to, d)), Truncate(from, HOUR), to) == []
  {
    hide OnGrid, Truncate;
    assert BeatsOf(outages, m, answer, d, Samples(from, to, d)) == [];
    RollupOfNone(Truncate(from, HOUR), to);
  }

  lemma {:induction false} RollupOfNone(h: int, to: int)
    ensures Rollup([], h, to) == []
    decreases Left(h, to)
  {
    if h < to { RollupOfNone(h + HOUR, to); }
  }

  // Nothing is counted twice and nothing is missed.

  function Total(buckets: seq<Bucket>): nat {
    if buckets == [] then 0 else buckets[0].up + buckets[0].down + Total(buckets[1..])
  }

  /** How many beats lie in the hour h or later. */
  function CountFrom(beats: seq<Beat>, h: int): nat {
    if beats == [] then 0 else
      CountFrom(beats[..|beats| - 1], h) + if beats[|beats| - 1].ts >= h then 1 else 0
  }

  lemma {:induction false} CountSplits(beats: seq<Beat>, h: int)
    requires OnGrid(h, HOUR)
    ensures CountFrom(beats, h) == Tally(beats, h).up + Tally(beats, h).down + CountFrom(beats, h + HOUR)
  {
    hide OnGrid, Truncate;
    if beats != [] {
      CountSplits(beats[..|beats| - 1], h);
      SameHour(beats[|beats| - 1].ts, h);
    }
  }

  lemma {:induction false} CountAll(beats: seq<Beat>, h: int)
    ensures (forall i :: 0 <= i < |beats| ==> beats[i].ts >= h) ==> CountFrom(beats, h) == |beats|
    ensures (forall i :: 0 <= i < |beats| ==> beats[i].ts < h) ==> CountFrom(beats, h) == 0
  {
    if beats != [] { CountAll(beats[..|beats| - 1], h); }
  }

  lemma {:induction false} RollupCounts(beats: seq<Beat>, h: int, to: int)
    requires OnGrid(h, HOUR) && forall i :: 0 <= i < |beats| ==> beats[i].ts < to
    ensures Total(Rollup(beats, h, to)) == CountFrom(beats, h)
    decreases Left(h, to)
  {
    hide OnGrid, Tally;
    if h >= to {
      CountAll(beats, h);
    } else {
      CountSplits(beats, h);
      GridStep(h, HOUR);
      RollupCounts(beats, h + HOUR, to);
      var b, rest := Tally(beats, h), Rollup(beats, h + HOUR, to);
      if b.up + b.down == 0 {
        assert Rollup(beats, h, to) == [] + rest == rest;
      } else {
        assert Rollup(beats, h, to) == [b] + rest && ([b] + rest)[1..] == rest;
      }
    }
  }

  /** A rollup counts each of its beats exactly once. */
  lemma RollupConserves(outages: seq<Outage>, m: Monitor, answer: int, from: int, to: int, d: nat)
    requires d > 0
    ensures var raw := BeatsOf(outages, m, answer, d, Samples(from, to, d));
      Total(Rollup(raw, Truncate(from, HOUR), to)) == |raw|
  {
    hide OnGrid, Tally, BeatAt, Samples;
    var raw := BeatsOf(outages, m, answer, d, Samples(from, to, d));
    BeatTimes(outages, m, answer, d, Samples(from, to, d));
    RollupCounts(raw, Truncate(from, HOUR), to);
    CountAll(raw, Truncate(from, HOUR));
  }
}
