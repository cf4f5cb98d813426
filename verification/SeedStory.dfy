/** The one rule of the seeded history: beats, buckets and incidents tell the same story. */
module SeedStory {
  import opened Prelude
  import opened SeedGrid
  import opened SeedOutages
  import opened SeedHistory

  /** The checks among ts that the beats show as failing because of o. */
  function Failing(out: seq<Outage>, o: Outage, ts: seq<int>): seq<int> {
    if ts == [] then [] else
      (if OutageAt(out, ts[0]) == Some(o) then [ts[0]] else []) + Failing(out, o, ts[1..])
  }

  lemma {:induction false} FailingOfBoth(out: seq<Outage>, o: Outage, a: seq<int>, b: seq<int>)
    ensures Failing(out, o, a + b) == Failing(out, o, a) + Failing(out, o, b)
  {
    if a == [] {
      assert a + b == b;
    } else {
      assert (a + b)[1..] == a[1..] + b;
      FailingOfBoth(out, o, a[1..], b);
    }
  }

  lemma {:induction false} FailingOfAll(out: seq<Outage>, o: Outage, ts: seq<int>)
    requires forall i :: 0 <= i < |ts| ==> OutageAt(out, ts[i]) == Some(o)
    ensures Failing(out, o, ts) == ts
  {
    if ts != [] { FailingOfAll(out, o, ts[1..]); }
  }

  lemma {:induction false} FailingOfNone(out: seq<Outage>, o: Outage, ts: seq<int>)
    requires forall i :: 0 <= i < |ts| ==> OutageAt(out, ts[i]) != Some(o)
    ensures Failing(out, o, ts) == []
  {
    if ts != [] { FailingOfNone(out, o, ts[1..]); }
  }

  /** The beats blame a kept failure exactly for the moments it covers. */
  lemma BlamedWhenCovering(out: seq<Outage>, start: int, horizon: int, d: nat, retries: int, i: nat, t: int)
    requires d > 0 && WellKept(out, start, horizon, d, retries) && !Followed(out) && i < |out|
    ensures OutageAt(out, t) == Some(out[i]) <==> out[i].Covers(t)
  {
    hide WellKept, Followed;
    if out[i].Covers(t) {
      var o := OutageAt(out, t).value;
      var j :| 0 <= j < |out| && out[j] == o;
      CoveredOnce(out, start, horizon, d, retries, i, j, t);
    }
  }

  /** Where the failing stretch of o stops inside the history. */
  function Stop(o: Outage, horizon: int): int {
    if o.end.Some? && o.end.value < horizon then o.end.value else horizon
  }

  /** The failing checks of a kept failure are all the checks from its start to its end. */
  lemma FailingIsStretch(out: seq<Outage>, start: int, horizon: int, d: nat, retries: int, i: nat)
    requires d > 0 && WellKept(out, start, horizon, d, retries) && !Followed(out) && i < |out| && !out[i].notice
    ensures start <= out[i].start <= SampleAtOrAfter(out[i].start, d) < Stop(out[i], horizon) <= horizon
    ensures Failing(out, out[i], Samples(start, horizon, d)) == Samples(out[i].start, Stop(out[i], horizon), d)
  {
    hide Followed, Samples, SampleAtOrAfter, Overlaps;
    var o, stop := out[i], Stop(out[i], horizon);
    assert Shows(o, start, horizon, d);
    var a, b, c := Samples(start, o.start, d), Samples(o.start, stop, d), Samples(stop, horizon, d);
    SamplesSplit(start, o.start, horizon, d);
    SamplesSplit(o.start, stop, horizon, d);
    forall t ensures OutageAt(out, t) == Some(o) <==> o.Covers(t) {
      BlamedWhenCovering(out, start, horizon, d, retries, i, t);
    }
    FailingOfNone(out, o, a);
    FailingOfAll(out, o, b);
    FailingOfNone(out, o, c);
    FailingOfBoth(out, o, b, c);
    FailingOfBoth(out, o, a, b + c);
  }

  /** The check at position n of a stretch, and whether there is one. */
  lemma NthOfStretch(from: int, stop: int, d: nat, n: nat)
    requires d > 0 && n > 0
    ensures |Samples(from, stop, d)| >= n <==> SampleAtOrAfter(from, d) + (n - 1) * d < stop
    ensures |Samples(from, stop, d)| >= n ==> Samples(from, stop, d)[n - 1] == SampleAtOrAfter(from, d) + (n - 1) * d
  {
    SamplesAt(from, stop, d, n - 1);
  }

  /** On the grid, being before a moment is being before the first check at or after it. */
  lemma StoredTimes(o: Outage, m: Monitor, horizon: int, d: nat)
    requires d > 0 && !o.notice
    ensures var inc, confirmed := Stored(o, m, horizon, d), SampleAtOrAfter(o.start, d) + (Needed(m) - 1) * d;
      && inc.startedAt == SampleAtOrAfter(o.start, d)
      && inc.confirmedAt == (if confirmed < Stop(o, horizon) then Some(confirmed) else None)
      && inc.resolvedAt
         == (if SampleAtOrAfter(Stop(o, horizon), d) < horizon then Some(SampleAtOrAfter(Stop(o, horizon), d)) else None)
  {
    hide OnGrid, SampleAtOrAfter;
    StepsOnGrid(SampleAtOrAfter(o.start, d), Needed(m) - 1, d);
    if o.end.Some? { SampleBound(SampleAtOrAfter(o.start, d) + (Needed(m) - 1) * d, o.end.value, d); }
  }

  lemma {:induction false} StepsOnGrid(t: int, k: nat, d: nat)
    requires d > 0 && OnGrid(t, d)
    ensures OnGrid(t + k * d, d)
  {
    hide OnGrid;
    if k > 0 {
      StepsOnGrid(t, k - 1, d);
      GridStep(t + (k - 1) * d, d);
      assert k * d == (k - 1) * d + d;
    }
  }

  /**
   * The incident of a kept failure, read off the beats: it starts at its first failing check, is confirmed at
   * the Nth one when there are that many, and is resolved at the passing check after the last one.
   */
  lemma IncidentMatchesSamples(out: seq<Outage>, m: Monitor, start: int, horizon: int, d: nat, i: nat)
    requires d > 0 && WellKept(out, start, horizon, d, m.retries) && !Followed(out) && i < |out| && !out[i].notice
    ensures var f, inc := Failing(out, out[i], Samples(start, horizon, d)), Stored(out[i], m, horizon, d);
      && f != []
      && inc.startedAt == f[0]
      && inc.confirmedAt == (if |f| >= Needed(m) then Some(f[Needed(m) - 1]) else None)
      && (var next := f[|f| - 1] + d;
          && inc.resolvedAt == (if next < horizon then Some(next) else None)
          && (next < horizon ==> OutageAt(out, next) == None))
  {
    hide WellKept, Followed, OnGrid, SampleAtOrAfter, Samples, Stored;
    var o, stop := out[i], Stop(out[i], horizon);
    FailingIsStretch(out, start, horizon, d, m.retries, i);
    SamplesLast(o.start, stop, d);
    NthOfStretch(o.start, stop, d, 1);
    NthOfStretch(o.start, stop, d, Needed(m));
    StoredTimes(o, m, horizon, d);
    var next := SampleAtOrAfter(stop, d);
    if next < horizon { RecoveryPasses(out, start, horizon, d, m.retries, i); }
  }

  /** The check that resolves a kept failure fails for no other reason either. */
  lemma RecoveryPasses(out: seq<Outage>, start: int, horizon: int, d: nat, retries: int, i: nat)
    requires d > 0 && WellKept(out, start, horizon, d, retries) && !Followed(out) && i < |out| && !out[i].notice
    requires SampleAtOrAfter(Stop(out[i], horizon), d) < horizon
    ensures OutageAt(out, SampleAtOrAfter(Stop(out[i], horizon), d)) == None
  {
    hide OutageAt, SampleAtOrAfter;
    var next := SampleAtOrAfter(Stop(out[i], horizon), d);
    forall j | 0 <= j < |out| ensures !out[j].Covers(next) {
      assert !IsFollowed(out[j], out[i]);
      if i < j { assert !Overlaps(out[i], out[j], d); }
      if j < i { assert !Overlaps(out[j], out[i], d); }
    }
  }

  /** An outage marked unconfirmed is never confirmed, and none of its checks is assessed as down. */
  lemma UnconfirmedStaysSo(o: Outage, m: Monitor, start: int, horizon: int, d: nat, t: int)
    requires d > 0 && o.unconfirmed && !o.notice
    requires Shows(o, start, horizon, d) && StaysUnconfirmed(o, horizon, d, m.retries)
    ensures Stored(o, m, horizon, d).confirmedAt == None
    ensures t < horizon && o.Covers(t) ==> OutageAssessment(o, m, d, t) == Warning
  {
    hide OnGrid, SampleAtOrAfter;
    var limit := SampleAtOrAfter(o.start, d) + (m.retries - 1) * d;
    StepsOnGrid(SampleAtOrAfter(o.start, d), m.retries - 1, d);
    if o.end.Some? { SampleBound(limit, o.end.value, d); }
  }

  // The story.

  ghost predicate Blames(out: seq<Outage>, m: Monitor, start: int, horizon: int, d: nat)
    requires d > 0
  {
    forall i, t :: 0 <= i < |out| && !out[i].notice && t in Samples(start, horizon, d) ==>
      (OutageAt(out, t) == Some(out[i]) <==> Stored(out[i], m, horizon, d).Open(t))
  }

  /**
   * Every incident's window is exactly its failing beats, if and only if no failure begins behind one that is
   * still going. What has to be asked for, so that none does, is OpenSpecsLeaveNoRoom below.
   */
  lemma OneStory(out: seq<Outage>, m: Monitor, start: int, horizon: int, d: nat)
    requires d > 0 && WellKept(out, start, horizon, d, m.retries)
    ensures Blames(out, m, start, horizon, d) <==> !Followed(out)
  {
    if !Followed(out) {
      hide WellKept, Followed, Stored, Samples, OnGrid;
      forall i, t | 0 <= i < |out| && !out[i].notice && t in Samples(start, horizon, d)
        ensures OutageAt(out, t) == Some(out[i]) <==> Stored(out[i], m, horizon, d).Open(t)
      {
        BlamedWhenCovering(out, start, horizon, d, m.retries, i, t);
        IncidentCoversOutage(out[i], m, horizon, d, t);
      }
    } else {
      hide WellKept, IsFollowed, Stored, Samples, OnGrid;
      var i, j :| 0 <= i < |out| && 0 <= j < |out| && IsFollowed(out[i], out[j]);
      BlamedTwice(out, m, start, horizon, d, i, j);
    }
  }

  lemma BlamedTwice(out: seq<Outage>, m: Monitor, start: int, horizon: int, d: nat, i: nat, j: nat)
    requires d > 0 && WellKept(out, start, horizon, d, m.retries) && i < |out| && j < |out| && IsFollowed(out[i], out[j])
    ensures !Blames(out, m, start, horizon, d)
  {
    hide SampleAtOrAfter, Samples, OnGrid, Stored, Overlaps;
    assert Shows(out[j], start, horizon, d);
    var t := SampleAtOrAfter(out[j].start, d);
    SamplesComplete(start, horizon, d, t);
    IncidentCoversOutage(out[i], m, horizon, d, t);
    IncidentCoversOutage(out[j], m, horizon, d, t);
    assert out[i].Covers(t) && out[j].Covers(t);
    assert out[i] != out[j];
  }

  ghost predicate SomeOpen(incidents: seq<Incident>, t: int) {
    exists i :: 0 <= i < |incidents| && incidents[i].Open(t)
  }

  ghost predicate SomeConfirmed(incidents: seq<Incident>, t: int) {
    exists i :: 0 <= i < |incidents| && incidents[i].OpenConfirmed(t)
  }

  function IncidentsOf(out: seq<Outage>, m: Monitor, horizon: int, d: nat): (s: seq<Incident>)
    requires d > 0
    ensures |s| == |out| && forall i :: 0 <= i < |s| ==> s[i] == Stored(out[i], m, horizon, d)
  {
    seq(|out|, i requires 0 <= i < |out| => Stored(out[i], m, horizon, d))
  }

  /** b fails exactly while an incident is open, and is down exactly while a confirmed one is. */
  ghost predicate Agrees(b: Beat, incidents: seq<Incident>) {
    && (b.ok <==> !SomeOpen(incidents, b.ts))
    && (b.ok <==> b.assessment.Up?)
    && (b.assessment.Down? <==> SomeConfirmed(incidents, b.ts))
  }

  lemma BeatAgrees(out: seq<Outage>, m: Monitor, answer: int, start: int, horizon: int, d: nat, t: int)
    requires d > 0 && WellKept(out, start, horizon, d, m.retries) && !Followed(out) && OnGrid(t, d) && t < horizon
    ensures Agrees(BeatAt(out, m, answer, d, t), IncidentsOf(out, m, horizon, d))
  {
    hide WellKept, Followed, Stored, OnGrid, OutageAssessment;
    var incidents := IncidentsOf(out, m, horizon, d);
    forall i | 0 <= i < |out|
      ensures incidents[i].Open(t) <==> OutageAt(out, t) == Some(out[i])
      ensures incidents[i].Open(t) ==> (OutageAssessment(out[i], m, d, t).Down? <==> incidents[i].OpenConfirmed(t))
    {
      IncidentCoversOutage(out[i], m, horizon, d, t);
      BlamedWhenCovering(out, start, horizon, d, m.retries, i, t);
      if out[i].Covers(t) { AssessmentFollowsIncident(out[i], m, horizon, d, t); }
    }
    AgreesByBlame(out, m, answer, horizon, d, t, incidents);
  }

  lemma AgreesByBlame(out: seq<Outage>, m: Monitor, answer: int, horizon: int, d: nat, t: int, incidents: seq<Incident>)
    requires d > 0 && |incidents| == |out|
    requires forall i :: 0 <= i < |out| ==> (incidents[i].Open(t) <==> OutageAt(out, t) == Some(out[i]))
    requires forall i :: 0 <= i < |out| && incidents[i].Open(t) ==>
      (OutageAssessment(out[i], m, d, t).Down? <==> incidents[i].OpenConfirmed(t))
    ensures Agrees(BeatAt(out, m, answer, d, t), incidents)
  {
    var b := BeatAt(out, m, answer, d, t);
    if OutageAt(out, t).Some? {
      var i :| 0 <= i < |out| && out[i] == OutageAt(out, t).value;
      assert incidents[i].Open(t);
      if b.assessment.Down? { assert incidents[i].OpenConfirmed(t); }
    }
  }

  // The whole history of one monitor.

  datatype History = History(beats: seq<Beat>, buckets: seq<Bucket>, incidents: seq<Incident>)

  datatype Plan = Plan(now: int, rawSince: int, bucketSince: int)

  datatype Profile = Profile(neverChecked: bool, silentFor: int, specs: seq<Spec>, draws: seq<Draw>)

  function Worded(o: Outage, notice: int -> string): Outage {
    if o.notice && o.message == "" then o.(message := notice(o.start)) else o
  }

  /** The outages behind the history: kept, and with every notice worded. */
  function OutagesOf(p: Profile, start: int, horizon: int, d: nat, retries: int, notice: int -> string): seq<Outage>
    requires d > 0
  {
    var all := Candidates(p.specs, p.draws, start, horizon, d);
    var kept := Resolved(all, |all|, start, horizon, d, retries);
    seq(|kept|, i requires 0 <= i < |kept| => Worded(kept[i], notice))
  }

  lemma OutagesAreWell(p: Profile, start: int, horizon: int, d: nat, retries: int, notice: int -> string)
    requires d > 0
    ensures WellKept(OutagesOf(p, start, horizon, d, retries, notice), start, horizon, d, retries)
  {
    hide SampleAtOrAfter;
    var all := Candidates(p.specs, p.draws, start, horizon, d);
    ResolvedIsWell(all, |all|, start, horizon, d, retries);
  }

  /** No scripted failure that never ends, and that the history reaches back to, leaves room for one behind it. */
  ghost predicate OpenSpecsLeaveNoRoom(specs: seq<Spec>, start: int, horizon: int, d: nat)
    requires d > 0
  {
    forall i :: 0 <= i < |specs| && !specs[i].outage.notice && specs[i].dur <= 0 && start <= horizon - specs[i].ago ==>
      NoRoomBehind(horizon - specs[i].ago, horizon, d)
  }

  /** Of the scripted failures that never end, none began more than a year and four intervals ago. */
  predicate OpenSpecsAreRecent(specs: seq<Spec>, d: nat) {
    forall i :: 0 <= i < |specs| && !specs[i].outage.notice && specs[i].dur <= 0 ==> specs[i].ago <= YEAR + 4 * d
  }

  /** Recent enough is enough for every length of the history; so is a history that reaches back no further. */
  lemma RecentLeaveNoRoom(specs: seq<Spec>, start: int, horizon: int, d: nat)
    requires d > 0 && (OpenSpecsAreRecent(specs, d) || horizon - start <= YEAR + 4 * d)
    ensures OpenSpecsLeaveNoRoom(specs, start, horizon, d)
  {
    hide SampleAtOrAfter;
  }

  lemma CandidatesLeaveNoRoom(p: Profile, start: int, horizon: int, d: nat)
    requires d > 0 && OpenSpecsLeaveNoRoom(p.specs, start, horizon, d)
    ensures OpenLeaveNoRoom(Candidates(p.specs, p.draws, start, horizon, d), start, horizon, d)
  {
    hide NoRoomBehind;
    var all := Candidates(p.specs, p.draws, start, horizon, d);
    forall i | 0 <= i < |all| && !all[i].notice && all[i].end.None? && start <= all[i].start
      ensures NoRoomBehind(all[i].start, horizon, d)
    {
      assert i < |p.specs| && all[i] == Scripted(p.specs[i], horizon);
    }
  }

  lemma WordingFollows(kept: seq<Outage>, worded: seq<Outage>, notice: int -> string)
    requires |worded| == |kept| && forall i :: 0 <= i < |kept| ==> worded[i] == Worded(kept[i], notice)
    ensures Followed(worded) == Followed(kept)
  {
    forall i, j | 0 <= i < |kept| && 0 <= j < |kept|
      ensures IsFollowed(worded[i], worded[j]) == IsFollowed(kept[i], kept[j])
    {
    }
    hide IsFollowed, Worded;
    if Followed(kept) {
      var i, j :| 0 <= i < |kept| && 0 <= j < |kept| && IsFollowed(kept[i], kept[j]);
      assert IsFollowed(worded[i], worded[j]);
    }
  }

  /** Then the history has no failure behind one that is still going, whatever its length. */
  lemma ProfileNeverFollowed(p: Profile, start: int, horizon: int, d: nat, retries: int, notice: int -> string)
    requires d > 0 && OpenSpecsLeaveNoRoom(p.specs, start, horizon, d)
    ensures !Followed(OutagesOf(p, start, horizon, d, retries, notice))
  {
    hide OpenSpecsLeaveNoRoom, Followed, Resolved, Worded;
    var all := Candidates(p.specs, p.draws, start, horizon, d);
    CandidatesLeaveNoRoom(p, start, horizon, d);
    NoRoomNeverFollowed(all, |all|, start, horizon, d, retries);
    WordingFollows(Resolved(all, |all|, start, horizon, d, retries), OutagesOf(p, start, horizon, d, retries, notice), notice);
  }

  /** A profile with a failure that began `ago` and never ended, and a second one as close behind it as may be. */
  function TwoFailures(o: Outage, ago: int, horizon: int, d: nat): Profile
    requires d > 0
  {
    var from := horizon - ago + YEAR + 4 * d;
    Profile(false, 0, [Spec(ago, 0, o), Spec(horizon - from, SampleAtOrAfter(from, d) + 1 - from, o)], [])
  }

  /**
   * Where there is room, some profile breaks the story: for every history, and every age of a failure that the
   * history reaches back to and that leaves room, an incident of this one is contradicted by the beats.
   */
  lemma LongHistoryCanBreak(m: Monitor, o: Outage, ago: int, start: int, horizon: int, d: nat, notice: int -> string)
    requires d > 0 && !o.notice && !o.unconfirmed && start <= horizon - ago
    requires !NoRoomBehind(horizon - ago, horizon, d)
    ensures !Blames(OutagesOf(TwoFailures(o, ago, horizon, d), start, horizon, d, m.retries, notice), m, start, horizon, d)
  {
    hide Blames, SampleAtOrAfter, OnGrid, Resolved;
    var p := TwoFailures(o, ago, horizon, d);
    var c := Scripted(p.specs[0], horizon);
    var all := Candidates(p.specs, p.draws, start, horizon, d);
    assert all == [c, Behind(c, d)];
    SampleMonotone(c.start, c.start + YEAR + 4 * d, d);
    RoomIsTaken(c, start, horizon, d, m.retries);
    var out := OutagesOf(p, start, horizon, d, m.retries, notice);
    assert out[0] == c && out[1] == Behind(c, d);
    assert Followed(out);
    OutagesAreWell(p, start, horizon, d, m.retries, notice);
    OneStory(out, m, start, horizon, d);
  }

  /** The first moment of the history. */
  function StartOf(created: Option<int>, pl: Plan): int {
    if created.Some? && created.value > pl.bucketSince then created.value else pl.bucketSince
  }

  /** Where buckets end and raw beats begin. */
  function RawFrom(pl: Plan, start: int, horizon: int): (r: int)
    ensures start < horizon ==> start <= r <= horizon
  {
    var raw := Later(pl.rawSince, start);
    if raw > horizon then horizon else raw
  }

  /**
   * h tells one story: every check of the history is in it once, as a beat or in the rollup of the beats it
   * stands for, and each of those beats agrees with the incidents.
   */
  ghost predicate TellsOneStory(h: History, out: seq<Outage>, m: Monitor, answer: int, start: int, raw: int, horizon: int, d: nat)
    requires d > 0
  {
    var all := BeatsOf(out, m, answer, d, Samples(start, horizon, d));
    var before := BeatsOf(out, m, answer, d, Samples(start, raw, d));
    && all == before + h.beats
    && h.buckets == Rollup(before, Truncate(start, HOUR), raw)
    && Total(h.buckets) + |h.beats| == |Samples(start, horizon, d)|
    && h.incidents == IncidentsOf(out, m, horizon, d)
    && (!Followed(out) ==> forall i :: 0 <= i < |all| ==> Agrees(all[i], h.incidents))
  }

  method BuildIncidents(outages: seq<Outage>, m: Monitor, horizon: int, d: nat) returns (incidents: seq<Incident>)
    requires d > 0
    ensures incidents == IncidentsOf(outages, m, horizon, d)
  {
    hide IncidentFor, Trimmed;
    incidents := [];
    for i := 0 to |outages|
      invariant |incidents| == i
      invariant forall j :: 0 <= j < i ==> incidents[j] == Stored(outages[j], m, horizon, d)
    {
      incidents := incidents + [Trimmed(IncidentFor(outages[i], m, d), horizon)];
    }
  }

  /** The sentence of every notice that has none yet. */
  method WordNotices(kept: seq<Outage>, notice: int -> string) returns (outages: seq<Outage>)
    ensures |outages| == |kept| && forall j :: 0 <= j < |kept| ==> outages[j] == Worded(kept[j], notice)
  {
    outages := kept;
    for i := 0 to |outages|
      invariant |outages| == |kept|
      invariant forall j :: 0 <= j < |kept| ==> outages[j] == if j < i then Worded(kept[j], notice) else kept[j]
    {
      if outages[i].notice && outages[i].message == "" {
        outages := outages[i := outages[i].(message := notice(outages[i].start))];
      }
    }
  }

  method BuildHistory(
    m: Monitor, p: Profile, created: Option<int>, pl: Plan, answer: int, notice: int -> string)
    returns (h: History)
    ensures var start, horizon, d := StartOf(created, pl), pl.now - p.silentFor, BeatInterval(m);
      if p.neverChecked || start >= horizon then h == History([], [], []) else
        var out := OutagesOf(p, start, horizon, d, m.retries, notice);
        && TellsOneStory(h, out, m, answer, start, RawFrom(pl, start, horizon), horizon, d)
        && (OpenSpecsLeaveNoRoom(p.specs, start, horizon, d) ==> !Followed(out))
        && (OpenSpecsAreRecent(p.specs, d) || horizon - start <= YEAR + 4 * d ==> !Followed(out))
  {
    hide OpenSpecsLeaveNoRoom, OpenSpecsAreRecent, TellsOneStory, WellKept, Followed, Stored, IncidentFor, Trimmed, Rollup, Samples, BeatsOf, Resolved, Candidates;
    if p.neverChecked { return History([], [], []); }
    var horizon := pl.now - p.silentFor;
    var start := StartOf(created, pl);
    if start >= horizon { return History([], [], []); }
    var d := BeatInterval(m);

    var outages := ResolveOutages(p.specs, p.draws, start, horizon, d, m.retries);
    outages := WordNotices(outages, notice);
    ghost var out := OutagesOf(p, start, horizon, d, m.retries, notice);
    assert outages == out;

    var incidents := BuildIncidents(outages, m, horizon, d);

    var raw := Later(pl.rawSince, start);
    if raw > horizon { raw := horizon; }
    var buckets := BuildBuckets(outages, m, answer, start, raw, d);
    var beats := BuildBeats(outages, m, answer, raw, horizon, d);
    h := History(beats, buckets, incidents);
    OutagesAreWell(p, start, horizon, d, m.retries, notice);
    StoryHolds(h, out, m, answer, start, raw, horizon, d);
    if OpenSpecsAreRecent(p.specs, d) || horizon - start <= YEAR + 4 * d { RecentLeaveNoRoom(p.specs, start, horizon, d); }
    if OpenSpecsLeaveNoRoom(p.specs, start, horizon, d) { ProfileNeverFollowed(p, start, horizon, d, m.retries, notice); }
  }

  lemma StoryHolds(h: History, out: seq<Outage>, m: Monitor, answer: int, start: int, raw: int, horizon: int, d: nat)
    requires d > 0 && start <= raw <= horizon && WellKept(out, start, horizon, d, m.retries)
    requires h.beats == BeatsOf(out, m, answer, d, Samples(raw, horizon, d))
    requires h.buckets == Rollup(BeatsOf(out, m, answer, d, Samples(start, raw, d)), Truncate(start, HOUR), raw)
    requires h.incidents == IncidentsOf(out, m, horizon, d)
    ensures TellsOneStory(h, out, m, answer, start, raw, horizon, d)
  {
    hide WellKept, Followed, BeatAt, Rollup, Stored, Agrees, Samples, OnGrid;
    var all := Samples(start, horizon, d);
    SamplesSplit(start, raw, horizon, d);
    RollupConserves(out, m, answer, start, raw, d);
    if !Followed(out) {
      forall i | 0 <= i < |all| ensures Agrees(BeatAt(out, m, answer, d, all[i]), h.incidents) {
        BeatAgrees(out, m, answer, start, horizon, d, all[i]);
      }
    }
  }
}
