/** A monitor's own export, imported back: it is accepted, and it changes nothing. */
module ConfigOwnMonitor {
  import opened Prelude
  import opened MonitorRules
  import opened MonitorPatch
  import opened MonitorInvariant
  import opened ConfigModel
  import opened ConfigMonitors

  function OwnEntry(r: Rules, m: Monitor, key: Key, channels: Option<seq<Key>>): MonitorEntry {
    Exported(r, m).(key := key, channels := channels)
  }

  lemma OwnDns(r: Rules, d: DnsCheck)
    requires SoundDns(r, d)
    ensures DnsEdit(r, d, Some(d)) == Some(d)
  {
    if d.resolver == "" { assert d.(resolver := "") == d; }
  }

  /** p sends a field as m holds it, or not at all. */
  predicate Same<T(==)>(sent: Option<T>, held: T) { sent.None? || sent.value == held }

  ghost predicate MirrorsChecks(r: Rules, p: Patch, m: Monitor) {
    && p.name == Some(m.name) && p.typ == Some(m.typ) && p.target == (if m.target == "" then None else Some(m.target))
    && Same(p.intervalS, m.intervalS) && Same(p.timeoutS, m.timeoutS) && Same(p.retries, m.retries) && Same(p.recovery, m.recovery)
    && (p.verb.Some? ==> r.verb(p.verb.value) == Some(m.verb)) && Same(p.expectedStatus, m.expectedStatus)
    && Same(p.keyword, m.keyword) && Same(p.keywordMode, m.keywordMode) && Same(p.followRedirects, m.followRedirects)
    && p.headers.None? && p.body.None? && p.channelIds.None?
  }

  ghost predicate MirrorsRest(r: Rules, p: Patch, m: Monitor) {
    && Same(p.sslWarnDays, m.sslWarnDays) && Same(p.repeatAfterS, m.repeatAfterS) && Same(p.enabled, m.enabled)
    && Same(p.captureResponse, m.captureResponse) && Same(p.minTLS, TLSLabel(m.minTLS)) && Same(p.trustedCert, m.pin)
    && Same(p.tags, m.tags) && p.dns == m.dns
    && (p.pushIntervalS.Some? || p.pushGraceS.Some? || p.pushTimezone.Some? ==> m.typ == Push)
    && Same(p.pushIntervalS, m.pushIntervalS) && Same(p.pushGraceS, m.pushGraceS) && Same(p.pushTimezone, m.pushTimezone)
    && (p.domainWarnDays.Some? ==> m.typ == Domain) && Same(p.domainWarnDays, m.domainWarnDays)
    && (p.trustedCert.Some? ==> PinCarrier(r, m.typ, m.target))
    && p.assertion == (if m.typ != Http then Leave else if m.assertion.Some? then Replace(m.assertion.value) else Clear)
  }

  lemma OwnMirrorsChecks(r: Rules, m: Monitor, key: Key, channels: Option<seq<Key>>)
    requires r.verb(VerbName(m.verb)) == Some(m.verb) && m.name != ""
    ensures MirrorsChecks(r, PatchOf(OwnEntry(r, m, key, channels)), m)
  {
    hide TLSLabel, PinCarrier, VerbName;
  }

  lemma OwnFields(r: Rules, m: Monitor, key: Key, channels: Option<seq<Key>>)
    ensures PatchOf(OwnEntry(r, m, key, channels)) == Exported(r, m).fields.(
              name := if m.name != "" then Some(m.name) else None, typ := Some(m.typ),
              target := if m.target != "" then Some(m.target) else None, headers := None, body := None, channelIds := None)
  {
    hide PinCarrier, TLSLabel, VerbName;
  }

  lemma OwnMirrorsRest(r: Rules, m: Monitor, key: Key, channels: Option<seq<Key>>)
    requires KnownType(m.typ) && DnsTypeOk(m.typ, m.dns)
    ensures MirrorsRest(r, PatchOf(OwnEntry(r, m, key, channels)), m)
  {
    hide TLSLabel, VerbName, PatchOf, OwnEntry;
    OwnFields(r, m, key, channels);
  }

  lemma OwnVerb(r: Rules, m: Monitor)
    requires Lawful(r) && TrimSpace(m.name) != ""
    ensures r.verb(VerbName(m.verb)) == Some(m.verb) && m.name != ""
  {
  }

  lemma OwnMirrors(r: Rules, m: Monitor, key: Key, channels: Option<seq<Key>>)
    requires Lawful(r) && TrimSpace(m.name) != "" && KnownType(m.typ) && DnsTypeOk(m.typ, m.dns)
    ensures MirrorsChecks(r, PatchOf(OwnEntry(r, m, key, channels)), m)
    ensures MirrorsRest(r, PatchOf(OwnEntry(r, m, key, channels)), m)
  {
    hide Lawful, OwnEntry, PatchOf, MirrorsChecks, MirrorsRest, KnownType, DnsTypeOk, TrimSpace;
    OwnVerb(r, m);
    OwnMirrorsChecks(r, m, key, channels);
    OwnMirrorsRest(r, m, key, channels);
  }

  lemma MirrorParts(r: Rules, p: Patch, m: Monitor)
    requires MirrorsRest(r, p, m) && SoundPin(r, m) && DnsTypeOk(m.typ, m.dns) && p.typ == Some(m.typ)
    requires (m.dns.Some? ==> DnsEdit(r, m.dns.value, m.dns) == m.dns)
    requires m.assertion.Some? ==> m.typ == Http && SavedAssertion(r, m.assertion.value) == m.assertion.value
    ensures MergedDns(r, m, p) == m.dns && MergedAssertion(r, m, p) == m.assertion && MergedPin(r, m, p, m.typ, m.target) == m.pin
  {
  }

  lemma MirrorMerge(r: Rules, p: Patch, m: Monitor, now: int)
    requires MirrorsChecks(r, p, m) && MirrorsRest(r, p, m) && (m.pin == "" ==> m.pinAt == 0)
    requires TrimSpace(m.pushTimezone) == m.pushTimezone
    requires r.tags(m.tags, m.tags) == Some(m.tags) && (m.typ != Domain ==> m.domainWarnDays == 0)
    requires m.minTLS == 0 || m.minTLS == 769 || m.minTLS == 770 || m.minTLS == 771 || m.minTLS == 772
    requires MergedDns(r, m, p) == m.dns && MergedAssertion(r, m, p) == m.assertion && MergedPin(r, m, p, m.typ, m.target) == m.pin
    ensures Merge(r, m, p, now) == m
  {
  }

  lemma MirrorChecks(r: Rules, p: Patch, m: Monitor)
    requires MirrorsChecks(r, p, m) && SoundTiming(m) && TrimSpace(m.name) != "" && KnownType(m.typ)
    requires (m.target != "" ==> TrimSpace(m.target) != "") && (m.typ != Push ==> m.target != "")
    requires r.statusSpec(m.expectedStatus) && !m.keywordMode.OtherMode?
    ensures IdentityProblem(m, p) == TimingProblem(m, p) == RequestProblem(r, m, p) == Fine
  {
  }

  lemma MirrorRest(r: Rules, p: Patch, m: Monitor)
    requires MirrorsRest(r, p, m) && SoundTiming(m) && SoundPush(r, m) && p.typ == Some(m.typ)
    requires r.tags(m.tags, m.tags) == Some(m.tags)
    requires m.minTLS == 0 || m.minTLS == 769 || m.minTLS == 770 || m.minTLS == 771 || m.minTLS == 772
    ensures AlertProblem(r, m, p) == DomainProblem(p, m) == PushProblem(r, p, m) == Fine
  {
  }

  lemma MirrorKind(r: Rules, p: Patch, m: Monitor)
    requires MirrorsRest(r, p, m) && SoundPin(r, m) && DnsTypeOk(m.typ, m.dns)
    requires HeadBodyOk(m.typ, m.verb, m.keyword, m.keywordMode, m.assertion.Some?)
    requires m.assertion.Some? ==> m.typ == Http && r.assertion(m.assertion.value)
    requires m.dns.Some? ==> DnsEdit(r, m.dns.value, m.dns) == m.dns
    ensures AssertionProblem(r, m, p, m) == DnsProblem(r, m, p, m) == TargetProblem(r, m, p, m) == Fine
  {
  }

  lemma OwnUnread(m: Monitor, p: Patch)
    ensures FirstIdle(m, JudgedSettings(m, p, m), 0) == Fine
  {
    FirstIdleMeaning(m, JudgedSettings(m, p, m));
  }

  /** Headers masked for an export resolve to themselves, and can be sent. */
  lemma OwnHeaders(r: Rules, h: Headers, sent: Headers)
    requires Sendable(r, h) && forall k, v :: r.header(k, v) ==> r.header(k, Placeholder)
    requires sent == map k | k in h :: if h[k] == "" then "" else Placeholder
    ensures Sendable(r, sent) && ResolvedHeaders(h, sent) == h && !HeaderMissing(h, sent)
  {
  }

  lemma OwnBody(body: string, sent: string)
    requires sent == if body == "" then "" else Placeholder
    ensures ResolvedBody(body, sent) == body && !BodyMissing(body, sent)
  {
  }

  lemma OwnPayload(p: Platform, m: Monitor, key: Key, channels: Option<seq<Key>>)
    requires Dependable(p) && Sendable(p.rules, m.headers)
    ensures var x := OwnEntry(p.rules, m, key, channels);
            WithPayload(Some(m), x, m) == m && PayloadAccepted(p.rules, Some(m), x, m) && !Withholds(Some(m), x)
  {
    hide PinCarrier, TLSLabel, VerbName, Sendable, ResolvedHeaders, HeaderMissing, ResolvedBody, BodyMissing, Lawful, WithPayload, PayloadAccepted, Withholds;
    var x := OwnEntry(p.rules, m, key, channels);
    if x.headers.Some? { OwnHeaders(p.rules, m.headers, x.headers.value); }
    if x.body.Some? { OwnBody(m.body, x.body.value); }
    OwnPayloadFits(p.rules, m, x);
  }

  lemma OwnPayloadFits(r: Rules, m: Monitor, x: MonitorEntry)
    requires x.headers.Some? ==> var h := x.headers.value; Sendable(r, h) && ResolvedHeaders(m.headers, h) == m.headers && !HeaderMissing(m.headers, h)
    requires x.body.Some? ==> ResolvedBody(m.body, x.body.value) == m.body && !BodyMissing(m.body, x.body.value)
    ensures WithPayload(Some(m), x, m) == m && PayloadAccepted(r, Some(m), x, m) && !Withholds(Some(m), x)
  {
    hide Sendable, ResolvedHeaders, HeaderMissing, ResolvedBody, BodyMissing;
  }

  lemma MirrorPatched(r: Rules, p: Patch, m: Monitor, now: int)
    requires MirrorsChecks(r, p, m) && MirrorsRest(r, p, m) && Sound(r, m)
    ensures Patched(r, m, p, now) == Merged(m)
  {
    if m.dns.Some? { OwnDns(r, m.dns.value); }
    MirrorParts(r, p, m);
    MirrorMerge(r, p, m, now);
    MirrorChecks(r, p, m);
    MirrorRest(r, p, m);
    MirrorKind(r, p, m);
    OwnUnread(m, p);
  }

  /** An instance's own export of a monitor that meets the current rules plans it as unchanged: every
      placeholder resolves to the stored value, nothing is refused and no field differs. */
  lemma OwnMonitorUnchanged(p: Platform, m: Monitor, key: Key, channels: Option<seq<Key>>, now: int)
    requires Dependable(p) && Sound(p.rules, m)
    ensures var x := OwnEntry(p.rules, m, key, channels);
            && Planned(p.rules, Some(m), x, now) == Some(m) && !Changed(p.rules, m, m) && !Withholds(Some(m), x)
            && NextMonitor(p.rules, Some(m), x, now) == Some(m)
  {
    var x := OwnEntry(p.rules, m, key, channels);
    OwnMirrors(p.rules, m, key, channels);
    MirrorPatched(p.rules, PatchOf(x), m, now);
    OwnPayload(p, m, key, channels);
  }
}
