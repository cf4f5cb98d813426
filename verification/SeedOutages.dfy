/** The outages of a seeded history and the incidents made from them. */
module SeedOutages {
  import opened Prelude
  import opened SeedGrid

  const SECOND: nat := 1_000_000_000
  const YEAR: nat := 365 * 24 * 3600 * SECOND

  datatype Outage = Outage(
    start: int,
    end: Option<int>,
    cause: string,
    message: string,
    status: int,
    unconfirmed: bool,
    acked: bool,
    reminders: int,
    notice: bool)
  {
    /** t falls in a failing stretch. A notice has none. */
    predicate Covers(t: int) {
      !notice && start <= t && (end.None? || t < end.value)
    }
  }

  /** The first outage of the list that covers t. */
  function OutageAt(outages: seq<Outage>, t: int): (o: Option<Outage>)
    ensures o.Some? ==> o.value in outages && o.value.Covers(t)
    ensures o.None? ==> forall p :: p in outages ==> !p.Covers(t)
  {
    if outages == [] then None
    else if outages[0].Covers(t) then Some(outages[0])
    else OutageAt(outages[1..], t)
  }

  /** Closer than four intervals, an open outage counting as a year long. */
  predicate Overlaps(a: Outage, b: Outage, d: nat) {
    var aEnd := a.end.GetOr(a.start + YEAR);
    var bEnd := b.end.GetOr(b.start + YEAR);
    a.start < bEnd + 4 * d && b.start < aEnd + 4 * d
  }

  /** Where an unconfirmed outage has to end: at what would be its confirming failure. */
  function Curtailed(o: Outage, horizon: int, d: nat, retries: int): Outage
    requires d > 0
  {
    var limit := SampleAtOrAfter(o.start, d) + (retries - 1) * d;
    if o.unconfirmed && ((o.end.None? && limit < horizon) || (o.end.Some? && o.end.value > limit))
    then o.(end := Some(limit)) else o
  }

  /** o shows inside the history at all. */
  predicate Shows(o: Outage, start: int, horizon: int, d: nat)
    requires d > 0
  {
    var first := SampleAtOrAfter(o.start, d);
    first < horizon && (o.end.Some? ==> first < o.end.value) && start <= o.start < horizon
  }

  /** The list with one more outage, or without it when it cannot be shown or is too close to another. */
  function Admit(out: seq<Outage>, o: Outage, start: int, horizon: int, d: nat, retries: int): seq<Outage>
    requires d > 0
  {
    if o.unconfirmed && retries <= 1 then out else
      var c := Curtailed(o, horizon, d, retries);
      if !Shows(c, start, horizon, d) || (exists e :: e in out && Overlaps(e, c, d)) then out else out + [c]
  }

  function Resolved(candidates: seq<Outage>, n: nat, start: int, horizon: int, d: nat, retries: int): seq<Outage>
    requires d > 0 && n <= |candidates|
  {
    if n == 0 then [] else
      Admit(Resolved(candidates, n - 1, start, horizon, d, retries), candidates[n - 1], start, horizon, d, retries)
  }

  datatype Spec = Spec(ago: int, dur: int, outage: Outage)

  /** The moments and lengths a random outage was drawn with: offset into the span, two to seven intervals. */
  datatype Draw = Draw(offset: nat, intervals: nat, outage: Outage)

  function Scripted(s: Spec, horizon: int): Outage {
    var from := horizon - s.ago;
    s.outage.(start := from, end := if s.dur > 0 then Some(from + s.dur) else None)
  }

  function Scattered(r: Draw, start: int, d: nat): Outage {
    r.outage.(start := start + r.offset, end := Some(start + r.offset + d * r.intervals))
  }

  function Candidates(specs: seq<Spec>, draws: seq<Draw>, start: int, horizon: int, d: nat): seq<Outage> {
    seq(|specs|, i requires 0 <= i < |specs| => Scripted(specs[i], horizon))
    + seq(|draws|, i requires 0 <= i < |draws| => Scattered(draws[i], start, d))
  }

  /** Decides on one outage, comparing it with each of those already kept. */
  method Add(out: seq<Outage>, o: Outage, start: int, horizon: int, d: nat, retries: int) returns (next: seq<Outage>)
    requires d > 0
    ensures next == Admit(out, o, start, horizon, d, retries)
  {
    var c := o;
    var first := SampleAtOrAfter(c.start, d);
    if c.unconfirmed {
      if retries <= 1 { return out; }
      var limit := first + (retries - 1) * d;
      if (c.end.None? && limit < horizon) || (c.end.Some? && c.end.value > limit) {
        c := c.(end := Some(limit));
      }
    }
    assert c == Curtailed(o, horizon, d, retries);
    if first >= horizon || (c.end.Some? && first >= c.end.value) { return out; }
    if c.start < start || c.start >= horizon { return out; }
    for i := 0 to |out|
      invariant forall j :: 0 <= j < i ==> !Overlaps(out[j], c, d)
    {
      if Overlaps(out[i], c, d) { return out; }
    }
    next := out + [c];
  }

  /** The scripted outages, then the random ones, each kept if it can be. */
  method ResolveOutages(specs: seq<Spec>, draws: seq<Draw>, start: int, horizon: int, d: nat, retries: int)
    returns (out: seq<Outage>)
    requires d > 0
    ensures var all := Candidates(specs, draws, start, horizon, d);
      out == Resolved(all, |all|, start, horizon, d, retries)
  {
    ghost var all := Candidates(specs, draws, start, horizon, d);
    out := [];
    for i := 0 to |specs|
      invariant out == Resolved(all, i, start, horizon, d, retries)
    {
      var o := Scripted(specs[i], horizon);
      assert o == all[i];
      out := Add(out, o, start, horizon, d, retries);
    }
    for i := 0 to |draws|
      invariant out == Resolved(all, |specs| + i, start, horizon, d, retries)
    {
      var o := Scattered(draws[i], start, d);
      assert o == all[|specs| + i];
      out := Add(out, o, start, horizon, d, retries);
    }
  }

  // What the kept outages have in common.

  /** An unconfirmed outage ends by the check that would have confirmed it, or has not reached it yet. */
  predicate StaysUnconfirmed(o: Outage, horizon: int, d: nat, retries: int)
    requires d > 0
  {
    var limit := SampleAtOrAfter(o.start, d) + (retries - 1) * d;
    o.unconfirmed ==> retries > 1 && (if o.end.Some? then o.end.value <= limit else limit >= horizon)
  }

  ghost predicate WellKept(out: seq<Outage>, start: int, horizon: int, d: nat, retries: int)
    requires d > 0
  {
    && (forall i :: 0 <= i < |out| ==> Shows(out[i], start, horizon, d) && StaysUnconfirmed(out[i], horizon, d, retries))
    && (forall i, j :: 0 <= i < j < |out| ==> !Overlaps(out[i], out[j], d))
  }

  lemma AdmitKeepsWell(out: seq<Outage>, o: Outage, start: int, horizon: int, d: nat, retries: int)
    requires d > 0 && WellKept(out, start, horizon, d, retries)
    ensures WellKept(Admit(out, o, start, horizon, d, retries), start, horizon, d, retries)
  {
    hide SampleAtOrAfter, Overlaps;
  }

  lemma {:induction false} ResolvedIsWell(candidates: seq<Outage>, n: nat, start: int, horizon: int, d: nat, retries: int)
    requires d > 0 && n <= |candidates|
    ensures WellKept(Resolved(candidates, n, start, horizon, d, retries), start, horizon, d, retries)
  {
    if n > 0 {
      ResolvedIsWell(candidates, n - 1, start, horizon, d, retries);
      AdmitKeepsWell(Resolved(candidates, n - 1, start, horizon, d, retries), candidates[n - 1], start, horizon, d, retries);
    }
  }

  /** A failure that is still going and another one that begins after it. */
  predicate Followed(out: seq<Outage>) {
    exists i, j :: 0 <= i < |out| && 0 <= j < |out| && IsFollowed(out[i], out[j])
  }

  predicate IsFollowed(a: Outage, b: Outage) {
    !a.notice && !b.notice && a.end.None? && a.start < b.start
  }

  // What the outages asked for have to meet, so that none is followed.

  /** Nothing that begins clear of a failure still going since `from` has a check before the horizon. */
  predicate NoRoomBehind(from: int, horizon: int, d: nat)
    requires d > 0
  {
    SampleAtOrAfter(from + YEAR + 4 * d, d) >= horizon
  }

  /** No failure that never ends, and that the history reaches back to, leaves room for one behind it. */
  ghost predicate OpenLeaveNoRoom(candidates: seq<Outage>, start: int, horizon: int, d: nat)
    requires d > 0
  {
    forall i :: 0 <= i < |candidates| && !candidates[i].notice && candidates[i].end.None? && start <= candidates[i].start ==>
      NoRoomBehind(candidates[i].start, horizon, d)
  }

  /** o can be what became of c: at its start, as what it is, and open only if c was. */
  predicate ComesFrom(o: Outage, c: Outage) {
    c.start == o.start && c.notice == o.notice && (o.end.None? ==> c.end.None?)
  }

  ghost predicate AskedFor(o: Outage, candidates: seq<Outage>, n: nat)
    requires n <= |candidates|
  {
    exists i :: 0 <= i < n && ComesFrom(o, candidates[i])
  }

  ghost predicate AllAskedFor(out: seq<Outage>, candidates: seq<Outage>, n: nat)
    requires n <= |candidates|
  {
    forall k :: 0 <= k < |out| ==> AskedFor(out[k], candidates, n)
  }

  lemma {:induction false} KeptWereAskedFor(candidates: seq<Outage>, n: nat, start: int, horizon: int, d: nat, retries: int)
    requires d > 0 && n <= |candidates|
    ensures AllAskedFor(Resolved(candidates, n, start, horizon, d, retries), candidates, n)
  {
    if n > 0 {
      hide SampleAtOrAfter, Overlaps, Shows;
      KeptWereAskedFor(candidates, n - 1, start, horizon, d, retries);
      var before, out := Resolved(candidates, n - 1, start, horizon, d, retries), Resolved(candidates, n, start, horizon, d, retries);
      forall k | 0 <= k < |out| ensures AskedFor(out[k], candidates, n) {
        if k < |before| {
          assert out[k] == before[k] && AskedFor(before[k], candidates, n - 1);
          var i :| 0 <= i < n - 1 && ComesFrom(before[k], candidates[i]);
          assert ComesFrom(out[k], candidates[i]);
        } else {
          assert ComesFrom(out[k], candidates[n - 1]);
        }
      }
    }
  }

  lemma NoRoomForLater(a: Outage, b: Outage, start: int, horizon: int, d: nat)
    requires d > 0 && Shows(a, start, horizon, d) && Shows(b, start, horizon, d) && !Overlaps(a, b, d)
    requires !a.notice && a.end.None? ==> NoRoomBehind(a.start, horizon, d)
    ensures !IsFollowed(a, b)
  {
    hide OnGrid, SampleAtOrAfter;
    if a.start + YEAR + 4 * d <= b.start { SampleMonotone(a.start + YEAR + 4 * d, b.start, d); }
  }

  lemma OverlapsBothWays(a: Outage, b: Outage, d: nat)
    ensures Overlaps(a, b, d) == Overlaps(b, a, d)
  {
  }

  /** Then, whatever the length of the history, no kept failure begins behind one that is still going. */
  lemma NoRoomNeverFollowed(candidates: seq<Outage>, n: nat, start: int, horizon: int, d: nat, retries: int)
    requires d > 0 && n <= |candidates| && OpenLeaveNoRoom(candidates, start, horizon, d)
    ensures !Followed(Resolved(candidates, n, start, horizon, d, retries))
  {
    var out := Resolved(candidates, n, start, horizon, d, retries);
    ResolvedIsWell(candidates, n, start, horizon, d, retries);
    KeptWereAskedFor(candidates, n, start, horizon, d, retries);
    hide Resolved, IsFollowed, Overlaps, StaysUnconfirmed, NoRoomBehind, SampleAtOrAfter;
    forall i, j | 0 <= i < |out| && 0 <= j < |out|
      ensures !IsFollowed(out[i], out[j])
    {
      assert AskedFor(out[i], candidates, n);
      var k :| 0 <= k < n && ComesFrom(out[i], candidates[k]);
      OverlapsBothWays(out[i], out[j], d);
      if i == j { NotItself(out[i]); } else { NoRoomForLater(out[i], out[j], start, horizon, d); }
    }
  }

  /** A second failure, as close behind c as it may be: over after its first check. */
  function Behind(c: Outage, d: nat): Outage
    requires d > 0
  {
    var from := c.start + YEAR + 4 * d;
    c.(start := from, end := Some(SampleAtOrAfter(from, d) + 1), unconfirmed := false)
  }

  lemma RoomIsTaken(c: Outage, start: int, horizon: int, d: nat, retries: int)
    requires d > 0 && Shows(c, start, horizon, d) && !c.notice && c.end.None? && !c.unconfirmed
    requires !NoRoomBehind(c.start, horizon, d)
    ensures var all := [c, Behind(c, d)];
      Resolved(all, 2, start, horizon, d, retries) == all && IsFollowed(all[0], all[1])
  {
    hide OnGrid, SampleAtOrAfter;
    var b := Behind(c, d);
    assert Resolved([c, b], 1, start, horizon, d, retries) == Admit([], c, start, horizon, d, retries) == [c];
    assert !Overlaps(c, b, d);
    assert Resolved([c, b], 2, start, horizon, d, retries) == Admit([c], b, start, horizon, d, retries) == [c, b];
  }

  /** others are failures that end, or notices. */
  predicate AllEnd(others: seq<Outage>) { forall i :: 0 <= i < |others| ==> others[i].notice || others[i].end.Some? }

  /** c is not followed, whatever failures that end are asked for beside it. */
  ghost predicate NeverFollowed(c: Outage, start: int, horizon: int, d: nat, retries: int)
    requires d > 0
  {
    forall others :: AllEnd(others) ==> !Followed(Resolved([c] + others, 1 + |others|, start, horizon, d, retries))
  }

  /**
   * The condition is exact for each failure that never ends: it is never followed by failures that end, whichever
   * they are, if and only if it leaves no room behind it.
   */
  lemma RoomDecides(c: Outage, start: int, horizon: int, d: nat, retries: int)
    requires d > 0 && Shows(c, start, horizon, d) && !c.notice && c.end.None? && !c.unconfirmed
    ensures NeverFollowed(c, start, horizon, d, retries) <==> NoRoomBehind(c.start, horizon, d)
  {
    if NoRoomBehind(c.start, horizon, d) {
      hide Resolved, Followed, Shows, NoRoomBehind;
      forall others | AllEnd(others)
        ensures !Followed(Resolved([c] + others, 1 + |others|, start, horizon, d, retries))
      {
        NoRoomNeverFollowed([c] + others, 1 + |others|, start, horizon, d, retries);
      }
    } else {
      RoomIsTaken(c, start, horizon, d, retries);
      hide Resolved, IsFollowed, Shows, NoRoomBehind;
      var all, others := [c, Behind(c, d)], [Behind(c, d)];
      assert [c] + others == all && AllEnd(others);
      assert Followed(all);
    }
  }

  lemma NotItself(a: Outage)
    ensures !IsFollowed(a, a)
  {
  }

  lemma NeverBoth(a: Outage, b: Outage, start: int, horizon: int, d: nat, t: int)
    requires d > 0 && Shows(a, start, horizon, d) && Shows(b, start, horizon, d) && !Overlaps(a, b, d)
    requires !IsFollowed(a, b) && !IsFollowed(b, a)
    ensures !(a.Covers(t) && b.Covers(t))
  {
    hide SampleAtOrAfter;
  }

  /** No moment lies in two of the kept failures. */
  lemma CoveredOnce(out: seq<Outage>, start: int, horizon: int, d: nat, retries: int, i: nat, j: nat, t: int)
    requires d > 0 && WellKept(out, start, horizon, d, retries) && !Followed(out)
    requires i < |out| && j < |out|
    ensures out[i].Covers(t) && out[j].Covers(t) ==> i == j
  {
    hide IsFollowed, Overlaps, Shows, StaysUnconfirmed;
    if i < j { NeverBoth(out[i], out[j], start, horizon, d, t); }
    if j < i { NeverBoth(out[j], out[i], start, horizon, d, t); }
  }

  // Incidents.

  datatype Monitor = Monitor(retries: int, repeatAfterS: int, push: bool, pushIntervalS: int, intervalS: int)

  /** How often the monitor produces a heartbeat. */
  function BeatInterval(m: Monitor): (d: nat)
    ensures d > 0
  {
    if m.push && m.pushIntervalS > 0 then m.pushIntervalS * SECOND
    else if m.intervalS > 0 then m.intervalS * SECOND
    else 60 * SECOND
  }

  datatype Incident = Incident(
    startedAt: int,
    resolvedAt: Option<int>,
    confirmedAt: Option<int>,
    ackedAt: Option<int>,
    remindedAt: Option<int>,
    reminders: int,
    notice: bool,
    cause: string,
    lastError: string)
  {
    /** t is inside the failing stretch the incident shows. */
    predicate Open(t: int) {
      !notice && startedAt <= t && (resolvedAt.None? || t < resolvedAt.value)
    }

    /** t is at or after the confirmation, and before the recovery. */
    predicate OpenConfirmed(t: int) {
      Open(t) && confirmedAt.Some? && confirmedAt.value <= t
    }
  }

  function Needed(m: Monitor): nat { if m.retries > 1 then m.retries else 1 }

  function IncidentFor(o: Outage, m: Monitor, d: nat): Incident
    requires d > 0
  {
    var startedAt := SampleAtOrAfter(o.start, d);
    var resolvedAt := if o.end.Some? then Some(SampleAtOrAfter(o.end.value, d)) else None;
    var confirmed := if o.notice then startedAt else startedAt + (Needed(m) - 1) * d;
    var confirmedAt := if resolvedAt.None? || confirmed < resolvedAt.value then Some(confirmed) else None;
    var ackedAt := if o.acked && confirmedAt.Some? then Some(confirmedAt.value + 660 * SECOND) else None;
    var reminded := o.reminders > 0 && confirmedAt.Some? && ackedAt.None?;
    var gap := if m.repeatAfterS * SECOND <= 0 then 3600 * SECOND else m.repeatAfterS * SECOND;
    Incident(
      startedAt, resolvedAt, confirmedAt, ackedAt,
      if reminded then Some(confirmedAt.value + o.reminders * gap) else None,
      if reminded then o.reminders else 0,
      o.notice, o.cause, o.message)
  }

  /** The incident as the end of the history leaves it: nothing in it lies in the future. */
  function Trimmed(inc: Incident, horizon: int): Incident {
    var a := if inc.confirmedAt.Some? && inc.confirmedAt.value >= horizon
             then inc.(confirmedAt := None, ackedAt := None, remindedAt := None, reminders := 0) else inc;
    if a.resolvedAt.Some? && a.resolvedAt.value >= horizon then a.(resolvedAt := None) else a
  }

  /** The incident the history stores for an outage. */
  function Stored(o: Outage, m: Monitor, horizon: int, d: nat): Incident
    requires d > 0
  {
    Trimmed(IncidentFor(o, m, d), horizon)
  }

  datatype Assessment = Up | Warning | Down

  function OutageAssessment(o: Outage, m: Monitor, d: nat, at: int): Assessment
    requires d > 0
  {
    var inc := IncidentFor(o, m, d);
    if inc.confirmedAt.Some? && inc.confirmedAt.value <= at then Down else Warning
  }

  /** On the grid, the outage and its incident cover the same checks. */
  lemma IncidentCoversOutage(o: Outage, m: Monitor, horizon: int, d: nat, t: int)
    requires d > 0 && OnGrid(t, d) && t < horizon
    ensures Stored(o, m, horizon, d).Open(t) <==> o.Covers(t)
  {
    hide OnGrid, SampleAtOrAfter;
    SampleBound(t, o.start, d);
    if o.end.Some? { SampleBound(t, o.end.value, d); }
  }

  /** A check is assessed as down exactly inside the confirmed part of its incident. */
  lemma AssessmentFollowsIncident(o: Outage, m: Monitor, horizon: int, d: nat, t: int)
    requires d > 0 && OnGrid(t, d) && t < horizon && o.Covers(t)
    ensures OutageAssessment(o, m, d, t).Down? <==> Stored(o, m, horizon, d).OpenConfirmed(t)
  {
    hide OnGrid, SampleAtOrAfter;
    IncidentCoversOutage(o, m, horizon, d, t);
  }
}
