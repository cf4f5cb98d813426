/** What every create and every accepted PATCH keeps of a monitor, and that a PATCH sent twice is a
    PATCH sent once. */
module MonitorInvariant {
  import opened Prelude
  import opened MonitorRules
  import opened MonitorPatch

  // ------------------------------------------------------------------- the invariant

  ghost predicate SoundTiming(m: Monitor) {
    && IntervalInRange(m.intervalS) && TimeoutInRange(m.timeoutS)
    && TimeoutFits(m.typ, m.intervalS, m.timeoutS)
    && (m.typ == Domain ==> m.intervalS >= MinDomainIntervalS)
    && RetriesInRange(m.retries) && RecoveryInRange(m.recovery)
    && SSLWarnInRange(m.sslWarnDays) && RepeatInRange(m.repeatAfterS)
    && DomainWarnInRange(m.domainWarnDays)
  }

  ghost predicate SoundKind(r: Rules, m: Monitor) {
    && KnownType(m.typ) && TrimSpace(m.name) != ""
    && (m.typ != Push ==> TrimSpace(m.target) != "") && (m.target != "" ==> TrimSpace(m.target) != "")
    && DnsTypeOk(m.typ, m.dns)
    && (m.dns.Some? ==> SoundDns(r, m.dns.value))
    && (m.assertion.Some? ==> m.typ == Http && SoundAssertion(r, m.assertion.value))
    && (m.typ != Domain ==> m.domainWarnDays == 0)
    && r.tags(m.tags, m.tags) == Some(m.tags)
  }

  /** Stored dns settings read back as themselves. */
  ghost predicate SoundDns(r: Rules, d: DnsCheck) {
    TrimSpace(d.resolver) == d.resolver && DnsFromWire(r, d.(resolver := "")) == Some(d.(resolver := ""))
  }

  ghost predicate SoundAssertion(r: Rules, a: Assertion) { r.assertion(a) && SavedAssertion(r, a) == a }

  ghost predicate SoundRequest(r: Rules, m: Monitor) {
    && HeadBodyOk(m.typ, m.verb, m.keyword, m.keywordMode, m.assertion.Some?)
    && !m.keywordMode.OtherMode?
    && r.statusSpec(m.expectedStatus) && Sendable(r, m.headers)
    && (m.minTLS == 0 || m.minTLS == 769 || m.minTLS == 770 || m.minTLS == 771 || m.minTLS == 772)
  }

  /** No setting the monitor's checks never read holds anything but its default. */
  ghost predicate NothingIdle(m: Monitor) { forall s :: !IdleSetting(m, s) }

  ghost predicate SoundPush(r: Rules, m: Monitor) {
    && (m.typ == Push ==> PushRangeProblem(m.pushIntervalS, m.pushGraceS) == Fine)
    && (m.pushTimezone != "" ==> m.typ == Push && r.zone(m.pushTimezone) && WholeDays(m.pushIntervalS))
    && TrimSpace(m.pushTimezone) == m.pushTimezone
  }

  ghost predicate SoundPin(r: Rules, m: Monitor) {
    && (m.pin != "" ==> PinCarrier(r, m.typ, m.target) && r.fingerprint(m.pin) == Some(m.pin) && TrimSpace(m.pin) != "")
    && (m.pin == "" ==> m.pinAt == 0)
  }

  /** The rules a monitor is held to, all at once. */
  ghost predicate Sound(r: Rules, m: Monitor) {
    && SoundTiming(m) && SoundKind(r, m) && SoundRequest(r, m)
    && NothingIdle(m) && SoundPush(r, m) && SoundPin(r, m)
  }

  /** A row as the store holds it. */
  ghost predicate Settled(m: Monitor) { Stored(m) == m }

  // ------------------------------------------------------------- a PATCH keeps it

  lemma PatchKeepsTiming(r: Rules, m: Monitor, p: Patch, now: int, n: Monitor)
    requires SoundTiming(m) && SoundKind(r, m) && n == Merge(r, m, p, now)
    requires TimingProblem(n, p) == AlertProblem(r, m, p) == DomainProblem(p, n) == IdentityProblem(m, p) == Fine
    ensures SoundTiming(n)
  {
  }

  lemma DnsEditSound(r: Rules, w: DnsCheck, stored: Option<DnsCheck>)
    requires DnsEdit(r, w, stored).Some?
    ensures SoundDns(r, DnsEdit(r, w, stored).value)
  {
    var d := DnsEdit(r, w, stored).value;
    DnsValuesMeaning(r, w.recordType, w.expected, |w.expected|);
    DnsValuesAgain(r, w.recordType, w.expected, d.expected, |w.expected|);
  }

  /** The values kept from a request are accepted as they are. */
  lemma {:induction false} DnsValuesAgain(r: Rules, recordType: string, raw: seq<string>, vs: seq<string>, n: nat)
    requires n <= |raw| == |vs| && DnsValues(r, recordType, raw, n).Some?
    requires forall i :: 0 <= i < n ==> vs[i] == TrimSpace(raw[i])
    ensures DnsValues(r, recordType, vs, n) == DnsValues(r, recordType, raw, n)
  {
    if n > 0 {
      DnsValuesAgain(r, recordType, raw, vs, n - 1);
      assert TrimSpace(vs[n - 1]) == TrimSpace(raw[n - 1]) by { TrimIdempotent(raw[n - 1]); }
    }
  }

  lemma PatchKeepsKind(r: Rules, m: Monitor, p: Patch, now: int, n: Monitor)
    requires Lawful(r) && SoundKind(r, m) && n == Merge(r, m, p, now)
    requires IdentityProblem(m, p) == AssertionProblem(r, m, p, n) == DnsProblem(r, m, p, n) == Fine
    requires TargetProblem(r, m, p, n) == AlertProblem(r, m, p) == Fine
    ensures SoundKind(r, n)
  {
    PatchKeepsAssertion(r, m, p, n);
    PatchKeepsDns(r, m, p, n);
    assert TrimSpace(n.name) != "" && KnownType(n.typ);
    assert r.tags(n.tags, n.tags) == Some(n.tags);
  }

  lemma PatchKeepsDns(r: Rules, m: Monitor, p: Patch, n: Monitor)
    requires DnsTypeOk(m.typ, m.dns) && (m.dns.Some? ==> SoundDns(r, m.dns.value))
    requires n.typ == p.typ.GetOr(m.typ) && n.dns == MergedDns(r, m, p) && DnsProblem(r, m, p, n) == Fine
    ensures DnsTypeOk(n.typ, n.dns) && (n.dns.Some? ==> SoundDns(r, n.dns.value))
  {
    if p.dns.Some? { DnsEditSound(r, p.dns.value, m.dns); }
  }

  lemma PatchKeepsAssertion(r: Rules, m: Monitor, p: Patch, n: Monitor)
    requires Lawful(r) && (m.assertion.Some? ==> m.typ == Http && SoundAssertion(r, m.assertion.value))
    requires n.typ == p.typ.GetOr(m.typ) && n.assertion == MergedAssertion(r, m, p)
    requires AssertionProblem(r, m, p, n) == Fine
    ensures n.assertion.Some? ==> n.typ == Http && SoundAssertion(r, n.assertion.value)
  {
  }

  lemma PatchKeepsHeaders(r: Rules, m: Monitor, p: Patch, n: Monitor)
    requires Sendable(r, m.headers) && RequestProblem(r, m, p) == Fine
    requires n.headers == p.headers.GetOr(m.headers) || n.headers == map[]
    ensures Sendable(r, n.headers)
  {
  }

  lemma PatchKeepsRequest(r: Rules, m: Monitor, p: Patch, now: int, n: Monitor)
    requires r.statusSpec(DefaultStatus) && SoundRequest(r, m) && n == Merge(r, m, p, now)
    requires m.assertion.Some? ==> m.typ == Http
    requires RequestProblem(r, m, p) == AssertionProblem(r, m, p, n) == AlertProblem(r, m, p) == Fine
    ensures SoundRequest(r, n)
  {
    PatchKeepsHeaders(r, m, p, n);
    assert !n.keywordMode.OtherMode? && r.statusSpec(n.expectedStatus);
  }

  lemma PatchKeepsPush(r: Rules, m: Monitor, p: Patch, now: int, n: Monitor)
    requires SoundPush(r, m) && n == Merge(r, m, p, now)
    requires PushProblem(r, p, n) == IdentityProblem(m, p) == Fine
    ensures SoundPush(r, n)
  {
  }

  lemma PatchKeepsPin(r: Rules, m: Monitor, p: Patch, now: int, n: Monitor)
    requires Lawful(r) && SoundPin(r, m) && n == Merge(r, m, p, now)
    requires TargetProblem(r, m, p, n) == Fine
    ensures SoundPin(r, n)
  {
  }

  lemma PatchKeepsNothingIdle(r: Rules, m: Monitor, p: Patch, now: int, n: Monitor)
    requires NothingIdle(m) && n == Merge(r, m, p, now)
    requires forall s :: Judged(m, p, n, s) ==> !IdleSetting(n, s)
    ensures NothingIdle(n)
  {
    forall s: Setting ensures !IdleSetting(n, s) {
      assert !IdleSetting(m, s);
    }
  }

  /** An accepted PATCH of a sound monitor leaves a sound monitor, although each cross-field rule is
      judged only when some of the fields it joins were sent. */
  lemma PatchKeepsSound(r: Rules, m: Monitor, p: Patch, now: int)
    requires Lawful(r) && Sound(r, m) && Patched(r, m, p, now).Merged?
    ensures Sound(r, Patched(r, m, p, now).m)
  {
    var n := Merge(r, m, p, now);
    AllFine(r, m, p, n);
    PatchKeepsTiming(r, m, p, now, n);
    PatchKeepsKind(r, m, p, now, n);
    PatchKeepsRequest(r, m, p, now, n);
    PatchKeepsPush(r, m, p, now, n);
    PatchKeepsPin(r, m, p, now, n);
    PatchKeepsNothingIdle(r, m, p, now, n);
  }

  /** The write that follows keeps it too, and leaves a settled row. */
  lemma StoreKeepsSound(r: Rules, n: Monitor)
    requires Lawful(r) && Sound(r, n)
    ensures Sound(r, Stored(n)) && Settled(Stored(n))
  {
    var s := Stored(n);
    StoredIdempotent(n);
    assert SoundTiming(s);
    assert SoundRequest(r, s);
    StoreKeepsKind(r, n);
    assert SoundPush(r, s) && SoundPin(r, s);
    forall x: Setting ensures !IdleSetting(s, x) {
      assert !IdleSetting(n, x);
    }
  }

  lemma StoreKeepsKind(r: Rules, n: Monitor)
    requires SoundKind(r, n)
    ensures SoundKind(r, Stored(n))
  {
  }

  // --------------------------------------------------------- the same PATCH a second time

  /** s is what the first PATCH of m left: n itself, or the row n was written as. */
  ghost predicate LeftBy(m: Monitor, n: Monitor, s: Monitor) {
    s == n || (Settled(m) && s == Stored(n))
  }

  /** s holds n's value in every field, except where the request itself sent an empty one and the
      store filled in its default, the channel ids, which a row does not carry, and what an import
      resolves after the merge: headers, a body and the switch. */
  ghost predicate Echo(p: Patch, n: Monitor, s: Monitor) {
    && s == n.(verb := s.verb, expectedStatus := s.expectedStatus, keywordMode := s.keywordMode,
               channelIds := s.channelIds, headers := s.headers, body := s.body, enabled := s.enabled)
    && (s.verb == n.verb || (p.verb.Some? && n.verb == Unset && s.verb == GET))
    && (s.expectedStatus == n.expectedStatus
        || (p.expectedStatus.Some? && n.expectedStatus == "" && s.expectedStatus == DefaultStatus))
    && (s.keywordMode == n.keywordMode || (p.keywordMode.Some? && n.keywordMode == UnsetMode && s.keywordMode == AbsentOk))
    && (s.channelIds == n.channelIds || p.channelIds.Some?)
    && (s.headers == n.headers || p.headers.None?) && (s.body == n.body || p.body.None?)
  }

  /** What sending p to s leaves. */
  function Resent(p: Patch, n: Monitor, s: Monitor): Monitor {
    n.(headers := p.headers.GetOr(s.headers), body := p.body.GetOr(s.body), enabled := p.enabled.GetOr(s.enabled),
       channelIds := if p.channelIds.Some? then p.channelIds else s.channelIds)
  }

  lemma LeftIsEcho(r: Rules, m: Monitor, p: Patch, now: int, n: Monitor, s: Monitor)
    requires n == Merge(r, m, p, now) && LeftBy(m, n, s)
    requires IdentityProblem(m, p) == TimingProblem(n, p) == AlertProblem(r, m, p) == PushProblem(r, p, n) == Fine
    ensures Echo(p, n, s) && s.headers == n.headers && s.body == n.body && s.enabled == n.enabled
  {
    if s == Stored(n) {
      assert n.intervalS != 0 && n.timeoutS != 0 && n.recovery != 0 && n.sslWarnDays != 0;
      assert n.typ != Push ==> n.pushGraceS == 0 && n.pushTimezone == "";
    }
  }

  lemma DnsEditTwice(r: Rules, w: DnsCheck, stored: Option<DnsCheck>)
    requires DnsEdit(r, w, stored).Some?
    ensures DnsEdit(r, w, DnsEdit(r, w, stored)) == DnsEdit(r, w, stored)
  {
  }

  /** The parts of a merge that come out of a parser come out the same from s. */
  lemma PartsTwice(r: Rules, m: Monitor, p: Patch, now: int, n: Monitor, s: Monitor)
    requires Lawful(r) && n == Merge(r, m, p, now) && Echo(p, n, s)
    requires AlertProblem(r, m, p) == DnsProblem(r, m, p, n) == TargetProblem(r, m, p, n) == Fine
    ensures MergedDns(r, s, p) == n.dns && MergedAssertion(r, s, p) == n.assertion
    ensures MergedPin(r, s, p, n.typ, n.target) == n.pin
    ensures p.tags.Some? ==> r.tags(p.tags.value, s.tags) == Some(n.tags)
  {
    if p.dns.Some? { DnsEditTwice(r, p.dns.value, m.dns); }
  }

  lemma MergeTwice(r: Rules, m: Monitor, p: Patch, now: int, later: int, n: Monitor, s: Monitor)
    requires n == Merge(r, m, p, now) && Echo(p, n, s) && (p.verb.Some? ==> r.verb(p.verb.value) == Some(n.verb))
    requires MergedDns(r, s, p) == n.dns && MergedAssertion(r, s, p) == n.assertion
    requires MergedPin(r, s, p, n.typ, n.target) == n.pin
    requires p.tags.Some? ==> r.tags(p.tags.value, s.tags) == Some(n.tags)
    ensures Merge(r, s, p, later) == Resent(p, n, s)
  {
  }

  lemma IdentityFineTwice(m: Monitor, p: Patch, s: Monitor)
    requires IdentityProblem(m, p) == Fine
    requires s.name == p.name.GetOr(m.name) && s.typ == p.typ.GetOr(m.typ) && s.target == p.target.GetOr(m.target)
    ensures IdentityProblem(s, p) == Fine
  {
  }

  lemma RequestFineTwice(r: Rules, m: Monitor, p: Patch, s: Monitor)
    requires RequestProblem(r, m, p) == Fine
    requires p.expectedStatus.Some? ==> s.expectedStatus == p.expectedStatus.value || p.expectedStatus.value == ""
    requires p.keyword.Some? ==> s.keyword == p.keyword.value
    requires p.headers.Some? ==> s.headers == p.headers.value
    requires p.body.Some? ==> s.body == p.body.value
    ensures RequestProblem(r, s, p) == Fine
  {
  }

  lemma FieldsFineTwice(r: Rules, m: Monitor, p: Patch, now: int, n: Monitor, s: Monitor)
    requires n == Merge(r, m, p, now) && Echo(p, n, s)
    requires IdentityProblem(m, p) == RequestProblem(r, m, p) == Fine
    ensures IdentityProblem(s, p) == RequestProblem(r, s, p) == Fine
    ensures (p.headers.Some? ==> n.headers == p.headers.value) && (p.body.Some? ==> n.body == p.body.value)
    ensures p.verb.Some? ==> r.verb(p.verb.value) == Some(n.verb)
  {
    IdentityFineTwice(m, p, s);
    RequestFineTwice(r, m, p, s);
  }

  lemma AlertFineTwice(r: Rules, m: Monitor, p: Patch, s: Monitor)
    requires AlertProblem(r, m, p) == Fine && (p.tags.Some? ==> r.tags(p.tags.value, s.tags).Some?)
    ensures AlertProblem(r, s, p) == Fine
  {
  }

  lemma AssertionFineTwice(r: Rules, m: Monitor, p: Patch, n: Monitor, s: Monitor)
    requires Lawful(r) && n.assertion == MergedAssertion(r, m, p) && s.assertion == n.assertion
    requires AssertionProblem(r, m, p, n) == Fine
    requires m.assertion.Some? ==> SavedAssertion(r, m.assertion.value) == m.assertion.value
    ensures AssertionProblem(r, s, p, n) == Fine
  {
  }

  lemma JoinedFineTwice(r: Rules, m: Monitor, p: Patch, now: int, n: Monitor, s: Monitor)
    requires n == Merge(r, m, p, now) && Echo(p, n, s)
    requires DnsProblem(r, m, p, n) == TargetProblem(r, m, p, n) == Fine
    ensures DnsProblem(r, s, p, n) == TargetProblem(r, s, p, n) == Fine
  {
    if p.dns.Some? { DnsEditTwice(r, p.dns.value, m.dns); }
  }

  lemma UnreadFineTwice(p: Patch, n: Monitor, s: Monitor, t: Monitor)
    requires Echo(p, n, s) && t == Resent(p, n, s)
    requires (p.headers.Some? ==> n.headers == p.headers.value) && (p.body.Some? ==> n.body == p.body.value)
    ensures FirstIdle(t, JudgedSettings(s, p, t), 0) == Fine
  {
    forall x | x in JudgedSettings(s, p, t) ensures !IdleSetting(t, x) {}
    FirstIdleMeaning(t, JudgedSettings(s, p, t));
  }

  /** No rule but the unread settings reads what Resent leaves open. */
  lemma SameVerdicts(r: Rules, p: Patch, n: Monitor, s: Monitor, t: Monitor)
    requires t == Resent(p, n, s)
    ensures TimingProblem(t, p) == TimingProblem(n, p) && AssertionProblem(r, s, p, t) == AssertionProblem(r, s, p, n)
    ensures DnsProblem(r, s, p, t) == DnsProblem(r, s, p, n) && DomainProblem(p, t) == DomainProblem(p, n)
    ensures PushProblem(r, p, t) == PushProblem(r, p, n) && TargetProblem(r, s, p, t) == TargetProblem(r, s, p, n)
  {
  }

  lemma TogetherFineTwice(r: Rules, m: Monitor, p: Patch, now: int, n: Monitor, s: Monitor, t: Monitor)
    requires Lawful(r) && n == Merge(r, m, p, now) && Echo(p, n, s) && t == Resent(p, n, s)
    requires TimingProblem(n, p) == AssertionProblem(r, m, p, n) == DnsProblem(r, m, p, n) == DomainProblem(p, n) == Fine
    requires PushProblem(r, p, n) == TargetProblem(r, m, p, n) == Fine
    requires m.assertion.Some? ==> SavedAssertion(r, m.assertion.value) == m.assertion.value
    ensures TimingProblem(t, p) == AssertionProblem(r, s, p, t) == DnsProblem(r, s, p, t) == DomainProblem(p, t) == Fine
    ensures PushProblem(r, p, t) == TargetProblem(r, s, p, t) == Fine
  {
    AssertionFineTwice(r, m, p, n, s);
    JoinedFineTwice(r, m, p, now, n, s);
    SameVerdicts(r, p, n, s, t);
  }

  /** Accepted once, p is accepted from every monitor that echoes what it left, and leaves that monitor
      but for the fields p says nothing of. */
  lemma AcceptedFromEcho(r: Rules, m: Monitor, p: Patch, now: int, later: int, s: Monitor)
    requires Lawful(r) && Patched(r, m, p, now).Merged? && Echo(p, Patched(r, m, p, now).m, s)
    requires m.assertion.Some? ==> SavedAssertion(r, m.assertion.value) == m.assertion.value
    ensures Patched(r, s, p, later) == Merged(Resent(p, Patched(r, m, p, now).m, s))
  {
    var n := Merge(r, m, p, now);
    var t := Resent(p, n, s);
    AllFine(r, m, p, n);
    PartsTwice(r, m, p, now, n, s);
    FieldsFineTwice(r, m, p, now, n, s);
    MergeTwice(r, m, p, now, later, n, s);
    AlertFineTwice(r, m, p, s);
    TogetherFineTwice(r, m, p, now, n, s, t);
    UnreadFineTwice(p, n, s, t);
  }

  /** Sent again to the monitor it left, a PATCH is accepted and changes nothing: not the time its pin
      was set, whatever the clock says, and not through the defaults the store filled in between. */
  lemma PatchTwiceIsOnce(r: Rules, m: Monitor, p: Patch, now: int, later: int, s: Monitor)
    requires Lawful(r) && Patched(r, m, p, now).Merged? && LeftBy(m, Patched(r, m, p, now).m, s)
    requires m.assertion.Some? ==> SavedAssertion(r, m.assertion.value) == m.assertion.value
    ensures Patched(r, s, p, later) == Patched(r, m, p, now)
  {
    var n := Merge(r, m, p, now);
    AllFine(r, m, p, n);
    LeftIsEcho(r, m, p, now, n, s);
    AcceptedFromEcho(r, m, p, now, later, s);
  }
}
