/** An import holds a monitor to the rules a form is held to: a new key makes the monitor the API would
    have created, and every monitor an import writes is sound. */
module ConfigSound {
  import opened Prelude
  import opened MonitorRules
  import opened MonitorPatch
  import opened MonitorInvariant
  import opened MonitorCreate
  import opened ConfigModel
  import opened ConfigMonitors

  lemma CreatePin(r: Rules, m: MonitorEntry, now: int)
    requires CreateRequestProblem(r, CreateOf(m)) == Fine
    ensures var n := Merge(r, Blank(m), PatchOf(m), now);
            n.pin == Created(r, CreateOf(m), now).pin && n.pinAt == Created(r, CreateOf(m), now).pinAt
  {
  }

  lemma CreatePush(r: Rules, m: MonitorEntry, now: int)
    requires CreatePushProblem(r, CreateOf(m)) == Fine
    ensures var n, c := Merge(r, Blank(m), PatchOf(m), now), Created(r, CreateOf(m), now);
            n.pushIntervalS == c.pushIntervalS && n.pushGraceS == c.pushGraceS && n.pushTimezone == c.pushTimezone
  {
  }

  lemma CreateRest(r: Rules, m: MonitorEntry, now: int)
    requires r.verb(VerbName(Unset)) == Some(Unset) && r.tags(map[], map[]) == Some(map[])
    requires CreateIdentityProblem(r, CreateOf(m)) == CreateRequestProblem(r, CreateOf(m)) == Fine
    requires RequestProblem(r, Blank(m), PatchOf(m)) == AssertionProblem(r, Blank(m), PatchOf(m), Merge(r, Blank(m), PatchOf(m), now)) == Fine
    requires TimingProblem(Merge(r, Blank(m), PatchOf(m), now), PatchOf(m)) == Fine
    ensures var n, c := Stored(Merge(r, Blank(m), PatchOf(m), now)), Stored(Created(r, CreateOf(m), now));
            n == c.(pin := n.pin, pinAt := n.pinAt, pushIntervalS := n.pushIntervalS, pushGraceS := n.pushGraceS, pushTimezone := n.pushTimezone)
  {
  }

  /** An entry with a new key makes the row the API makes of the same request. */
  lemma ImportCreatesAlike(r: Rules, m: MonitorEntry, now: int)
    requires Lawful(r) && CreateProblem(r, CreateOf(m)) == Fine && Patched(r, Blank(m), PatchOf(m), now).Merged?
    ensures Stored(Patched(r, Blank(m), PatchOf(m), now).m) == Stored(Created(r, CreateOf(m), now))
  {
    var n, c := Merge(r, Blank(m), PatchOf(m), now), Created(r, CreateOf(m), now);
    CreateAllFine(r, CreateOf(m));
    AllFine(r, Blank(m), PatchOf(m), n);
    CreatePin(r, m, now);
    CreatePush(r, m, now);
    CreateRest(r, m, now);
    SamePinAndPush(n, c);
  }

  lemma SamePinAndPush(n: Monitor, c: Monitor)
    requires n.pin == c.pin && n.pinAt == c.pinAt
    requires n.pushIntervalS == c.pushIntervalS && n.pushGraceS == c.pushGraceS && n.pushTimezone == c.pushTimezone
    requires var s, t := Stored(n), Stored(c);
             s == t.(pin := s.pin, pinAt := s.pinAt, pushIntervalS := s.pushIntervalS, pushGraceS := s.pushGraceS, pushTimezone := s.pushTimezone)
    ensures Stored(n) == Stored(c)
  {
  }

  lemma ResolvedSendable(r: Rules, held: Headers, sent: Headers)
    requires Sendable(r, held) && Sendable(r, sent)
    ensures Sendable(r, ResolvedHeaders(held, sent))
  {
  }

  /** Headers and a body that pass their rules leave a sound monitor sound. */
  lemma PayloadKeepsSound(r: Rules, e: Option<Monitor>, m: MonitorEntry, n: Monitor)
    requires Sound(r, n) && (e.Some? ==> NothingIdle(e.value)) && Sendable(r, HeadersOf(e)) && PayloadAccepted(r, e, m, WithPayload(e, m, n))
    ensures Sound(r, WithPayload(e, m, n))
  {
    var full := WithPayload(e, m, n);
    if m.headers.Some? { ResolvedSendable(r, HeadersOf(e), m.headers.value); }
    assert SoundRequest(r, full) && SoundPush(r, full) && SoundPin(r, full) && SoundTiming(full);
    SameKind(r, n, full);
    forall s: Setting ensures !IdleSetting(full, s) {
      assert !IdleSetting(n, s) && (e.Some? ==> !IdleSetting(e.value, s));
    }
  }

  lemma SameKind(r: Rules, n: Monitor, full: Monitor)
    requires SoundKind(r, n) && full == n.(headers := full.headers, body := full.body, enabled := full.enabled)
    ensures SoundKind(r, full)
  {
  }

  lemma StoredPayload(r: Rules, m: MonitorEntry, n: Monitor)
    ensures Stored(WithPayload(None, m, n)) == WithPayload(None, m, Stored(n))
    ensures PayloadAccepted(r, None, m, WithPayload(None, m, n)) ==> PayloadAccepted(r, None, m, WithPayload(None, m, Stored(n)))
  {
  }

  lemma NewIsSound(r: Rules, m: MonitorEntry, now: int, n: Monitor)
    requires Lawful(r) && Planned(r, None, m, now) == Some(n)
    ensures Sound(r, Stored(n))
  {
    var n0 := Merge(r, Blank(m), PatchOf(m), now);
    PlannedMeans(r, None, m, now, n0, n);
    ImportCreatesAlike(r, m, now);
    CreateIsSound(r, CreateOf(m), now);
    StoredPayload(r, m, n0);
    PayloadKeepsSound(r, None, m, Stored(n0));
  }

  lemma EditIsSound(r: Rules, e: Monitor, m: MonitorEntry, now: int, n: Monitor)
    requires Lawful(r) && Sound(r, e) && Planned(r, Some(e), m, now) == Some(n)
    ensures Sound(r, Stored(n))
  {
    var n0 := Merge(r, e, PatchOf(m), now);
    PlannedMeans(r, Some(e), m, now, n0, n);
    PatchKeepsSound(r, e, PatchOf(m), now);
    PayloadKeepsSound(r, Some(e), m, n0);
    StoreKeepsSound(r, n);
  }

  /** Every monitor an import writes is sound: created by it, or changed from one that was. */
  lemma ImportKeepsSound(r: Rules, e: Option<Monitor>, m: MonitorEntry, now: int, t: Monitor)
    requires Lawful(r) && (e.Some? ==> Sound(r, e.value) && Settled(e.value)) && NextMonitor(r, e, m, now) == Some(t)
    ensures Sound(r, t) && Settled(t)
  {
    var n := Planned(r, e, m, now).value;
    StoredIdempotent(n);
    WrittenTwice(r, e, n);
    if e != Some(t) {
      if e.Some? { EditIsSound(r, e.value, m, now, n); } else { NewIsSound(r, m, now, n); }
    }
  }
}
