/** The monitor section of an import (planMonitor, monitorPatch and monitorChanges,
    internal/api/config_import.go; exportMonitor, config_export.go). A file entry is judged as the
    create or PATCH request it stands for. */
module ConfigMonitors {
  import opened Prelude
  import opened MonitorRules
  import opened MonitorPatch
  import opened MonitorInvariant
  import opened MonitorCreate
  import opened ConfigModel

  // -------------------------------------------------------------- the request it stands for

  /** monitorPatch. */
  function PatchOf(m: MonitorEntry): Patch {
    m.fields.(name := if m.name != "" then Some(m.name) else None, typ := m.typ,
              target := if m.target != "" then Some(m.target) else None,
              headers := None, body := None, channelIds := None)
  }

  /** The create request of an entry whose key is new. An empty TLS floor is no opinion. */
  function CreateOf(m: MonitorEntry): CreateRequest {
    var f := m.fields;
    CreateRequest(
      m.name, m.typ.GetOr(OtherType("")), m.target, f.intervalS.GetOr(0), f.timeoutS.GetOr(0), f.retries, f.recovery,
      f.verb.GetOr(""), f.expectedStatus.GetOr(""), f.keyword.GetOr(""), f.keywordMode.GetOr(UnsetMode),
      f.followRedirects, map[], "", f.sslWarnDays, f.repeatAfterS, f.enabled, f.captureResponse,
      if f.minTLS == Some("") then None else f.minTLS, f.trustedCert, f.tags.GetOr(map[]),
      f.pushIntervalS, f.pushGraceS, f.pushTimezone,
      if f.assertion.Replace? then Some(f.assertion.wire) else None, f.dns, f.domainWarnDays, None)
  }

  /** The monitor an entry with a new key starts from: create's defaults. */
  function Blank(m: MonitorEntry): Monitor {
    var typ := m.typ.GetOr(OtherType(""));
    WithDefaults(Monitor(
      m.name, typ, m.target, 0, 0, if typ == Domain && m.fields.retries.None? then 0 else 2, 0,
      Unset, "", "", UnsetMode, true, map[], "", None, 0, true, None,
      if typ == Domain then DefaultDomainWarnDays else 0, 0, true, DefaultRepeatAfterS,
      0, if typ == Push then DefaultPushGraceS else 0, "", "", 0, map[], None))
  }

  // ------------------------------------------------------------------- headers and a body

  function HeadersOf(e: Option<Monitor>): Headers { if e.Some? then e.value.headers else map[] }
  function BodyOf(e: Option<Monitor>): string { if e.Some? then e.value.body else "" }

  /** A withheld header resolves to the one the monitor sends, an empty one included; a header it does
      not send is dropped. */
  function ResolvedHeaders(held: Headers, sent: Headers): Headers {
    map k | k in sent && (sent[k] != Placeholder || k in held) :: if sent[k] != Placeholder then sent[k] else held[k]
  }

  predicate HeaderMissing(held: Headers, sent: Headers) {
    exists k :: k in sent && sent[k] == Placeholder && k !in held
  }

  function ResolvedBody(held: string, sent: string): string { if sent != Placeholder then sent else held }

  predicate BodyMissing(held: string, sent: string) { sent == Placeholder && held == "" }

  /** The loop of planMonitor over the headers a file sends. */
  method ResolveHeaders(held: Headers, sent: Headers) returns (headers: Headers, missing: set<string>)
    ensures headers == ResolvedHeaders(held, sent)
    ensures (missing != {}) == HeaderMissing(held, sent)
    ensures forall k :: k in missing <==> k in sent && k !in headers
  {
    headers, missing := map[], {};
    var left := sent.Keys;
    while left != {}
      invariant forall k :: k in left ==> k in sent
      invariant forall k :: k in headers <==> k in sent && k !in left && (sent[k] != Placeholder || k in held)
      invariant forall k :: k in headers ==> headers[k] == if sent[k] != Placeholder then sent[k] else held[k]
      invariant forall k :: k in missing <==> k in sent && k !in left && sent[k] == Placeholder && k !in held
      decreases |left|
    {
      var k :| k in left;
      if sent[k] != Placeholder {
        headers := headers[k := sent[k]];
      } else if k in held {
        headers := headers[k := held[k]];
      } else {
        missing := missing + {k};
      }
      left := left - {k};
    }
    if HeaderMissing(held, sent) {
      var k :| k in sent && sent[k] == Placeholder && k !in held;
      assert k in missing;
    }
  }

  // ---------------------------------------------------------------------------- the plan

  predicate Withholds(e: Option<Monitor>, m: MonitorEntry) {
    || (m.headers.Some? && HeaderMissing(HeadersOf(e), m.headers.value))
    || (m.body.Some? && BodyMissing(BodyOf(e), m.body.value))
  }

  /** The merged monitor with the file's headers and body, paused while one of them is missing. */
  function WithPayload(e: Option<Monitor>, m: MonitorEntry, n: Monitor): Monitor {
    n.(headers := if m.headers.Some? then ResolvedHeaders(HeadersOf(e), m.headers.value) else n.headers,
       body := if m.body.Some? then ResolvedBody(BodyOf(e), m.body.value) else n.body,
       enabled := n.enabled && !Withholds(e, m))
  }

  /** Limits and the unread rule judge headers and a body that differ from what the monitor holds. */
  predicate PayloadAccepted(r: Rules, e: Option<Monitor>, m: MonitorEntry, n: Monitor) {
    var retyped := e.None? || e.value.typ != n.typ;
    && (m.headers.Some? ==>
          && Sendable(r, m.headers.value)
          && (e.None? || n.headers != e.value.headers ==> r.headersFit(n.headers))
          && (retyped || n.headers != e.value.headers ==> !IdleSetting(n, SHeaders)))
    && (m.body.Some? ==>
          && (e.None? || n.body != e.value.body ==> |n.body| <= MaxBodyLen)
          && (retyped || n.body != e.value.body ==> !IdleSetting(n, SBody)))
  }

  function StartOf(e: Option<Monitor>, m: MonitorEntry): Monitor { if e.Some? then e.value else Blank(m) }

  /** The monitor the entry describes, before anything is written. */
  function Planned(r: Rules, e: Option<Monitor>, m: MonitorEntry, now: int): Option<Monitor> {
    if e.None? && CreateProblem(r, CreateOf(m)) != Fine then None
    else PlannedOf(r, e, m, Patched(r, StartOf(e, m), PatchOf(m), now))
  }

  function PlannedOf(r: Rules, e: Option<Monitor>, m: MonitorEntry, out: Outcome): Option<Monitor> {
    match out
    case Refused(_) => None
    case Merged(n) => if PayloadAccepted(r, e, m, WithPayload(e, m, n)) then Some(WithPayload(e, m, n)) else None
  }

  /** monitorChanges compares what an export writes, and headers and body as they are stored. */
  predicate Changed(r: Rules, before: Monitor, after: Monitor) {
    || Exported(r, before).(headers := None, body := None) != Exported(r, after).(headers := None, body := None)
    || before.headers != after.headers || before.body != after.body
  }

  /** The stored monitor an entry leaves. */
  function NextMonitor(r: Rules, e: Option<Monitor>, m: MonitorEntry, now: int): Option<Monitor> {
    match Planned(r, e, m, now)
    case None => None
    case Some(n) => Some(Written(r, e, n))
  }

  /** The row a plan leaves: nothing is written when no field a file carries changes. */
  function Written(r: Rules, e: Option<Monitor>, n: Monitor): Monitor {
    if e.None? || Changed(r, e.value, n) then Stored(n) else e.value
  }

  // ---------------------------------------------------------------------------- the export

  function NoFields(): Patch {
    Patch(None, None, None, None, None, None, None, None, None, None, None, None, None, None, None, None, None,
          None, None, None, None, None, None, None, Leave, None, None, None)
  }

  /** exportMonitor: every setting the type reads, and no other. */
  function Exported(r: Rules, m: Monitor): MonitorEntry {
    var common := NoFields().(
      enabled := Some(m.enabled), intervalS := Some(m.intervalS), timeoutS := Some(m.timeoutS), retries := Some(m.retries),
      recovery := Some(m.recovery), repeatAfterS := Some(m.repeatAfterS), tags := Some(m.tags));
    MonitorEntry("", m.name, Some(m.typ), m.target,
      match m.typ
      case Http => common.(
        verb := Some(VerbName(m.verb)), expectedStatus := Some(m.expectedStatus), keyword := Some(m.keyword),
        keywordMode := Some(m.keywordMode), followRedirects := Some(m.followRedirects), captureResponse := Some(m.captureResponse),
        assertion := if m.assertion.Some? then Replace(m.assertion.value) else Clear,
        sslWarnDays := Some(m.sslWarnDays), minTLS := Some(TLSLabel(m.minTLS)),
        trustedCert := if PinCarrier(r, m.typ, m.target) then Some(m.pin) else None)
      case Ssl => common.(sslWarnDays := Some(m.sslWarnDays), minTLS := Some(TLSLabel(m.minTLS)), trustedCert := Some(m.pin))
      case Dns => common.(dns := m.dns)
      case Domain => common.(domainWarnDays := Some(m.domainWarnDays))
      case Push => common.(pushIntervalS := Some(m.pushIntervalS), pushGraceS := Some(m.pushGraceS), pushTimezone := Some(m.pushTimezone))
      case _ => common,
      if m.typ == Http then Some(map k | k in m.headers :: if m.headers[k] == "" then "" else Placeholder) else None,
      if m.typ == Http then Some(if m.body == "" then "" else Placeholder) else None,
      None)
  }

  // ---------------------------------------------------------------------- run it again

  /** What the store holds: a settled row whose assertion is in its saved form. */
  ghost predicate AsStored(r: Rules, e: Option<Monitor>) {
    e.Some? ==> Settled(e.value) && (e.value.assertion.Some? ==> SavedAssertion(r, e.value.assertion.value) == e.value.assertion.value)
  }

  lemma BlankIsSettled(m: MonitorEntry)
    ensures Settled(Blank(m)) && Blank(m).assertion.None?
  {
  }

  /** The headers and the body an entry resolves to resolve to themselves. */
  lemma PayloadTwice(e: Option<Monitor>, m: MonitorEntry, n: Monitor, t: Monitor)
    requires n.headers == t.headers && n.body == t.body && n == WithPayload(e, m, n) && (n.enabled ==> !Withholds(e, m))
    ensures Withholds(Some(t), m) == Withholds(e, m)
    ensures m.headers.Some? ==> ResolvedHeaders(t.headers, m.headers.value) == n.headers
    ensures m.body.Some? ==> ResolvedBody(t.body, m.body.value) == n.body
  {
    if m.headers.Some? {
      var sent := m.headers.value;
      assert forall k :: k in sent && sent[k] == Placeholder ==> (k in t.headers <==> k in HeadersOf(e));
      assert ResolvedHeaders(t.headers, sent) == n.headers;
    }
  }

  lemma MergeIsEcho(r: Rules, start: Monitor, p: Patch, now: int, n: Monitor)
    requires Patched(r, start, p, now) == Merged(n) && Settled(start)
    ensures Echo(p, n, Stored(n))
  {
    AllFine(r, start, p, n);
    LeftIsEcho(r, start, p, now, n, Stored(n));
  }

  /** The row an import writes echoes the merge its request made. */
  lemma PayloadIsEcho(p: Patch, n: Monitor, full: Monitor)
    requires Echo(p, n, Stored(n)) && p.headers.None? && p.body.None?
    requires full == n.(headers := full.headers, body := full.body, enabled := full.enabled)
    ensures Echo(p, n, Stored(full))
  {
  }

  lemma PlannedMeans(r: Rules, e: Option<Monitor>, m: MonitorEntry, now: int, n0: Monitor, n: Monitor)
    requires Planned(r, e, m, now) == Some(n) && n0 == Merge(r, StartOf(e, m), PatchOf(m), now)
    ensures Patched(r, StartOf(e, m), PatchOf(m), now) == Merged(n0)
    ensures n == WithPayload(e, m, n0) && PayloadAccepted(r, e, m, n)
  {
  }

  lemma PlannedFrom(r: Rules, t: Monitor, m: MonitorEntry, now: int, n0: Monitor, n: Monitor)
    requires Patched(r, t, PatchOf(m), now) == Merged(n0)
    requires WithPayload(Some(t), m, n0) == n && PayloadAccepted(r, Some(t), m, n)
    ensures Planned(r, Some(t), m, now) == Some(n)
  {
  }

  /** Headers and a body that are the stored ones already are not judged again. */
  lemma PayloadAcceptedTwice(r: Rules, e: Option<Monitor>, m: MonitorEntry, n: Monitor, t: Monitor)
    requires PayloadAccepted(r, e, m, n) && t.typ == n.typ && t.headers == n.headers && t.body == n.body
    ensures PayloadAccepted(r, Some(t), m, n)
  {
  }

  lemma ResentIsPlanned(r: Rules, start: Monitor, e: Option<Monitor>, m: MonitorEntry, now: int, n0: Monitor, n: Monitor)
    requires n0 == Merge(r, start, PatchOf(m), now) && start.channelIds.None? && n == WithPayload(e, m, n0)
    requires Withholds(Some(Stored(n)), m) == Withholds(e, m)
    requires m.headers.Some? ==> ResolvedHeaders(n.headers, m.headers.value) == n.headers
    requires m.body.Some? ==> ResolvedBody(n.body, m.body.value) == n.body
    ensures WithPayload(Some(Stored(n)), m, Resent(PatchOf(m), n0, Stored(n))) == n
  {
  }

  ghost predicate AssertionKept(r: Rules, m: Monitor) {
    m.assertion.Some? ==> SavedAssertion(r, m.assertion.value) == m.assertion.value
  }

  lemma MergedIs(r: Rules, m: Monitor, p: Patch, now: int, n: Monitor)
    requires Patched(r, m, p, now) == Merged(n)
    ensures n == Merge(r, m, p, now)
  {
  }

  /** From the row an entry left, it describes the same monitor again, and nothing is refused. */
  lemma PlannedTwice(r: Rules, e: Option<Monitor>, m: MonitorEntry, now: int, later: int, n0: Monitor, n: Monitor)
    requires Lawful(r) && Settled(StartOf(e, m)) && AssertionKept(r, StartOf(e, m))
    requires Patched(r, StartOf(e, m), PatchOf(m), now) == Merged(n0) && n == WithPayload(e, m, n0) && PayloadAccepted(r, e, m, n)
    ensures Planned(r, Some(Stored(n)), m, later) == Some(n)
  {
    hide Lawful, Patched, Merge, PayloadAccepted, Echo, Planned, Withholds, ResolvedHeaders;
    var start, p, t := StartOf(e, m), PatchOf(m), Stored(n);
    MergedIs(r, start, p, now, n0);
    MergeIsEcho(r, start, p, now, n0);
    PayloadIsEcho(p, n0, n);
    AcceptedFromEcho(r, start, p, now, later, t);
    PayloadTwice(e, m, n, t);
    ResentIsPlanned(r, start, e, m, now, n0, n);
    PayloadAcceptedTwice(r, e, m, n, t);
    PlannedFrom(r, t, m, later, Resent(p, n0, t), n);
  }

  lemma MergeKeepsAssertion(r: Rules, start: Monitor, p: Patch, now: int)
    requires Lawful(r) && AssertionKept(r, start) && (p.assertion.Replace? ==> r.assertion(p.assertion.wire))
    ensures AssertionKept(r, Merge(r, start, p, now))
  {
  }

  lemma StartIsKept(r: Rules, e: Option<Monitor>, m: MonitorEntry)
    requires AsStored(r, e)
    ensures Settled(StartOf(e, m)) && AssertionKept(r, StartOf(e, m))
  {
    BlankIsSettled(m);
  }

  /** From the row an entry left, whatever the clock says, it describes the same monitor again. */
  lemma RowTwice(r: Rules, e: Option<Monitor>, m: MonitorEntry, now: int, later: int, n: Monitor)
    requires Lawful(r) && AsStored(r, e) && Planned(r, e, m, now) == Some(n)
    ensures Planned(r, Some(Stored(n)), m, later) == Some(n)
  {
    var n0 := Merge(r, StartOf(e, m), PatchOf(m), now);
    StartIsKept(r, e, m);
    PlannedMeans(r, e, m, now, n0, n);
    PlannedTwice(r, e, m, now, later, n0, n);
  }

  lemma RowIsKept(r: Rules, e: Option<Monitor>, m: MonitorEntry, now: int, n: Monitor)
    requires Lawful(r) && AsStored(r, e) && Planned(r, e, m, now) == Some(n)
    ensures AsStored(r, Some(Stored(n)))
  {
    StartIsKept(r, e, m);
    PlannedMeans(r, e, m, now, Merge(r, StartOf(e, m), PatchOf(m), now), n);
    MergeKeepsAssertion(r, StartOf(e, m), PatchOf(m), now);
    StoredIdempotent(n);
  }

  // ----------------------------------------------------------- without the time of a pin

  /** A monitor as a file knows it: files carry a pin, not the moment it was set. */
  function Undated(m: Monitor): Monitor { m.(pinAt := 0) }

  function UndatedIf(e: Option<Monitor>): Option<Monitor> { if e.Some? then Some(Undated(e.value)) else None }

  lemma UndatedVerdicts(r: Rules, m: Monitor, p: Patch, n: Monitor)
    ensures IdentityProblem(Undated(m), p) == IdentityProblem(m, p) && TimingProblem(Undated(n), p) == TimingProblem(n, p)
    ensures RequestProblem(r, Undated(m), p) == RequestProblem(r, m, p) && AlertProblem(r, Undated(m), p) == AlertProblem(r, m, p)
    ensures AssertionProblem(r, Undated(m), p, Undated(n)) == AssertionProblem(r, m, p, n)
    ensures DnsProblem(r, Undated(m), p, Undated(n)) == DnsProblem(r, m, p, n)
    ensures DomainProblem(p, Undated(n)) == DomainProblem(p, n) && PushProblem(r, p, Undated(n)) == PushProblem(r, p, n)
    ensures TargetProblem(r, Undated(m), p, Undated(n)) == TargetProblem(r, m, p, n)
    ensures FirstIdle(Undated(n), JudgedSettings(Undated(m), p, Undated(n)), 0) == FirstIdle(n, JudgedSettings(m, p, n), 0)
  {
    assert JudgedSettings(Undated(m), p, Undated(n)) == JudgedSettings(m, p, n);
    FirstIdleReads(Undated(n), n, JudgedSettings(m, p, n));
  }

  lemma UndatedMerge(r: Rules, m: Monitor, p: Patch, now: int)
    ensures Merge(r, Undated(m), p, 0) == Undated(Merge(r, m, p, now))
  {
    hide TrimSpace, TrustedCert, DnsEdit, SavedAssertion, ParseTLS, PinCarrier;
  }

  lemma UndatedPatch(r: Rules, m: Monitor, p: Patch, now: int)
    ensures Patched(r, Undated(m), p, 0) ==
      match Patched(r, m, p, now) case Merged(n) => Merged(Undated(n)) case Refused(f) => Refused(f)
  {
    UndatedMerge(r, m, p, now);
    UndatedVerdicts(r, m, p, Merge(r, m, p, now));
  }

  lemma UndatedPlanOf(r: Rules, e: Option<Monitor>, m: MonitorEntry, out: Outcome, undated: Outcome)
    requires undated == match out case Merged(n) => Merged(Undated(n)) case Refused(f) => Refused(f)
    ensures PlannedOf(r, UndatedIf(e), m, undated) == UndatedIf(PlannedOf(r, e, m, out))
  {
    if out.Merged? {
      assert WithPayload(UndatedIf(e), m, Undated(out.m)) == Undated(WithPayload(e, m, out.m));
    }
  }

  lemma UndatedPlan(r: Rules, e: Option<Monitor>, m: MonitorEntry, now: int)
    ensures Planned(r, UndatedIf(e), m, 0) == UndatedIf(Planned(r, e, m, now))
  {
    hide Patched, CreateProblem, PlannedOf;
    var start := StartOf(e, m);
    UndatedPatch(r, start, PatchOf(m), now);
    assert StartOf(UndatedIf(e), m) == Undated(start);
    UndatedPlanOf(r, e, m, Patched(r, start, PatchOf(m), now), Patched(r, Undated(start), PatchOf(m), 0));
  }

  /** What an entry leaves does not depend on the clock, but for the time of a new pin. */
  lemma UndatedNext(r: Rules, e: Option<Monitor>, m: MonitorEntry, now: int)
    ensures NextMonitor(r, UndatedIf(e), m, 0) == UndatedIf(NextMonitor(r, e, m, now))
  {
    UndatedPlan(r, e, m, now);
    if Planned(r, e, m, now).Some? { UndatedRow(r, e, Planned(r, e, m, now).value); }
  }

  lemma UndatedRow(r: Rules, e: Option<Monitor>, n: Monitor)
    ensures Stored(Undated(n)) == Undated(Stored(n))
    ensures e.Some? ==> Changed(r, Undated(e.value), Undated(n)) == Changed(r, e.value, n)
  {
    UndatedExport(r, n);
    if e.Some? { UndatedExport(r, e.value); }
  }

  lemma UndatedExport(r: Rules, n: Monitor)
    ensures Exported(r, Undated(n)) == Exported(r, n)
  {
  }

  // ------------------------------------------------------------------- the section's rule

  function MonitorOf(v: Option<MonitorView>): Option<Monitor> { if v.Some? then Some(v.value.monitor) else None }
  function AttachedTo(v: Option<MonitorView>): set<Ref> { if v.Some? then v.value.channels else {} }

  function NextMonitorView(p: Platform, v: Option<MonitorView>, m: MonitorEntry): Option<MonitorView> {
    match NextMonitor(p.rules, MonitorOf(v), m, 0)
    case None => None
    case Some(t) => Some(MonitorView(t, if m.channels.Some? then Refs(m.channels.value) else AttachedTo(v)))
  }

  /** A monitor is written in two calls, its row before its channels. */
  predicate MonitorHalf(v: Option<MonitorView>, s: Option<MonitorView>, t: MonitorView) {
    s == v || s == Some(t) || s == Some(MonitorView(t.monitor, AttachedTo(v)))
  }

  lemma WrittenTwice(r: Rules, e: Option<Monitor>, n: Monitor)
    ensures Written(r, Some(Written(r, e, n)), n) == Written(r, e, n)
    ensures Written(r, e, n) == Stored(n) || e == Some(Written(r, e, n))
  {
  }

  lemma NextMonitorTwice(r: Rules, e: Option<Monitor>, m: MonitorEntry, now: int, t: Monitor)
    requires Lawful(r) && AsStored(r, e) && NextMonitor(r, e, m, now) == Some(t)
    ensures NextMonitor(r, Some(t), m, now) == Some(t) && AsStored(r, Some(t))
  {
    var n := Planned(r, e, m, now).value;
    WrittenTwice(r, e, n);
    if e != Some(t) {
      RowTwice(r, e, m, now, now, n);
      RowIsKept(r, e, m, now, n);
    }
  }

  /** Judged again on anything its own writing can have left, an entry makes the same monitor. */
  lemma MonitorStable(p: Platform, v: Option<MonitorView>, s: Option<MonitorView>, m: MonitorEntry, t: MonitorView)
    requires Lawful(p.rules) && AsStored(p.rules, MonitorOf(v)) && NextMonitorView(p, v, m) == Some(t) && MonitorHalf(v, s, t)
    ensures NextMonitorView(p, s, m) == Some(t)
  {
    hide Lawful, NextMonitor, Planned, AsStored;
    NextMonitorTwice(p.rules, MonitorOf(v), m, 0, t.monitor);
  }

  // ---------------------------------------------------------------- a plan that changes nothing

  /** The entry sends a setting as empty text where the store keeps its default. */
  predicate SendsBlank(r: Rules, m: MonitorEntry, typ: MonitorType) {
    typ == Http &&
    (|| (m.fields.verb.Some? && r.verb(m.fields.verb.value) == Some(Unset))
     || m.fields.expectedStatus == Some("") || m.fields.keywordMode == Some(UnsetMode))
  }

  predicate HasBlank(n: Monitor) { n.verb == Unset || n.expectedStatus == "" || n.keywordMode == UnsetMode }

  lemma MergedBlank(r: Rules, start: Monitor, p: Patch, now: int, n: Monitor)
    requires Settled(start) && Patched(r, start, p, now) == Merged(n)
    ensures HasBlank(n) <==>
      || (p.verb.Some? && r.verb(p.verb.value) == Some(Unset)) || p.expectedStatus == Some("") || p.keywordMode == Some(UnsetMode)
  {
    AllFine(r, start, p, n);
  }

  /** A stored row differs from a plan exactly in the defaults the store filled in. */
  lemma StoredDiffers(r: Rules, p: Patch, n: Monitor, t: Monitor)
    requires Echo(p, n, t) && t.headers == n.headers && t.body == n.body && t.enabled == n.enabled && !HasBlank(t)
    ensures Changed(r, t, n) <==> n.typ == Http && HasBlank(n)
  {
  }

  lemma BlankIsAChange(r: Rules, t: Monitor, n: Monitor)
    requires !HasBlank(t) && HasBlank(n) && n.typ == Http
    ensures Changed(r, t, n)
  {
  }

  lemma PlannedBlank(r: Rules, e: Option<Monitor>, m: MonitorEntry, now: int, n: Monitor)
    requires Lawful(r) && AsStored(r, e) && Planned(r, e, m, now) == Some(n)
    ensures n.typ == Http && HasBlank(n) <==> SendsBlank(r, m, n.typ)
  {
    var n0 := Merge(r, StartOf(e, m), PatchOf(m), now);
    StartIsKept(r, e, m);
    PlannedMeans(r, e, m, now, n0, n);
    MergedBlank(r, StartOf(e, m), PatchOf(m), now, n0);
  }

  lemma WrittenRowDiffers(r: Rules, e: Option<Monitor>, m: MonitorEntry, now: int, n: Monitor)
    requires Lawful(r) && AsStored(r, e) && Planned(r, e, m, now) == Some(n)
    ensures Changed(r, Stored(n), n) <==> n.typ == Http && HasBlank(n)
  {
    var start, p, n0 := StartOf(e, m), PatchOf(m), Merge(r, StartOf(e, m), PatchOf(m), now);
    StartIsKept(r, e, m);
    PlannedMeans(r, e, m, now, n0, n);
    MergeIsEcho(r, start, p, now, n0);
    PayloadIsEcho(p, n0, n);
    RowDiffers(r, p, n0, n, Stored(n));
  }

  /** Planned again, an entry reports its monitor unchanged exactly when it does not send an http
      monitor's method, expected status or keyword mode as empty text: the plan compares the empty text
      with the default the store keeps for it, and reports an update that never ends. */
  lemma MonitorUnchangedTwice(r: Rules, e: Option<Monitor>, m: MonitorEntry, now: int, t: Monitor)
    requires Lawful(r) && AsStored(r, e) && NextMonitor(r, e, m, now) == Some(t)
    ensures Planned(r, Some(t), m, now).Some?
    ensures Changed(r, t, Planned(r, Some(t), m, now).value) <==> SendsBlank(r, m, t.typ)
  {
    var n := Planned(r, e, m, now).value;
    PlannedBlank(r, e, m, now, n);
    if e.Some? && !Changed(r, e.value, n) {
      assert t == e.value;
      UnchangedHasNoBlank(r, n, t);
      SameTypeUnlessChanged(r, t, n);
    } else {
      assert t == Stored(n);
      RowTwice(r, e, m, now, now, n);
      WrittenRowDiffers(r, e, m, now, n);
    }
  }

  /** An entry that sends nothing but one keyword mode, or one expected status. */
  function JustKeywordMode(key: Key, mode: KeywordMode): MonitorEntry {
    MonitorEntry(key, "", None, "", NoFields().(keywordMode := Some(mode)), None, None, None)
  }

  function JustExpectedStatus(key: Key, status: string): MonitorEntry {
    MonitorEntry(key, "", None, "", NoFields().(expectedStatus := Some(status)), None, None, None)
  }

  /** A request with one field of an http monitor's check, sent to a sound monitor. */
  lemma OneFieldMerges(r: Rules, m: Monitor, p: Patch, now: int)
    requires Sound(r, m) && Settled(m) && m.typ == Http
    requires p == NoFields().(keywordMode := p.keywordMode, expectedStatus := p.expectedStatus)
    ensures Merge(r, m, p, now) ==
      m.(keywordMode := p.keywordMode.GetOr(m.keywordMode), expectedStatus := p.expectedStatus.GetOr(m.expectedStatus))
  {
  }

  lemma EmptyTextIsAccepted(r: Rules, m: Monitor, p: Patch, now: int)
    requires r.statusSpec("") && Sound(r, m) && m.typ == Http && p == NoFields().(keywordMode := p.keywordMode, expectedStatus := p.expectedStatus)
    requires p.keywordMode == None || p.keywordMode == Some(UnsetMode)
    requires p.expectedStatus == None || p.expectedStatus == Some("")
    requires Merge(r, m, p, now) ==
      m.(keywordMode := p.keywordMode.GetOr(m.keywordMode), expectedStatus := p.expectedStatus.GetOr(m.expectedStatus))
    ensures Patched(r, m, p, now) == Merged(Merge(r, m, p, now))
  {
    var n := Merge(r, m, p, now);
    FirstIdleMeaning(n, JudgedSettings(m, p, n));
    assert forall s :: !IdleSetting(n, s);
    assert RequestProblem(r, m, p) == AlertProblem(r, m, p) == AssertionProblem(r, m, p, n) == Fine;
    assert TargetProblem(r, m, p, n) == PushProblem(r, p, n) == Fine;
  }

  /** The entries that show it: every sound http monitor accepts one of them, keeps the default, and is
      reported as an update each time. */
  lemma EmptyModeIsAlwaysAChange(r: Rules, m: Monitor, key: Key, now: int)
    requires Lawful(r) && Sound(r, m) && Settled(m) && m.typ == Http
    ensures var x := JustKeywordMode(key, UnsetMode);
      && Planned(r, Some(m), x, now) == Some(m.(keywordMode := UnsetMode)) && Changed(r, m, m.(keywordMode := UnsetMode))
      && NextMonitor(r, Some(m), x, now) == Some(m.(keywordMode := AbsentOk))
  {
    hide Lawful, Sound, Patched, Merge;
    var x := JustKeywordMode(key, UnsetMode);
    assert PatchOf(x) == NoFields().(keywordMode := Some(UnsetMode));
    AcceptsEmptyText(r);
    OneFieldMerges(r, m, PatchOf(x), now);
    EmptyTextIsAccepted(r, m, PatchOf(x), now);
    BlankIsAChange(r, m, m.(keywordMode := UnsetMode));
  }

  lemma EmptyStatusIsAlwaysAChange(r: Rules, m: Monitor, key: Key, now: int)
    requires Lawful(r) && Sound(r, m) && Settled(m) && m.typ == Http
    ensures var x := JustExpectedStatus(key, "");
      && Planned(r, Some(m), x, now) == Some(m.(expectedStatus := "")) && Changed(r, m, m.(expectedStatus := ""))
      && NextMonitor(r, Some(m), x, now) == Some(m.(expectedStatus := DefaultStatus))
  {
    hide Lawful, Sound, Patched, Merge;
    var x := JustExpectedStatus(key, "");
    assert PatchOf(x) == NoFields().(expectedStatus := Some(""));
    AcceptsEmptyText(r);
    OneFieldMerges(r, m, PatchOf(x), now);
    EmptyTextIsAccepted(r, m, PatchOf(x), now);
    BlankIsAChange(r, m, m.(expectedStatus := ""));
  }

  lemma AcceptsEmptyText(r: Rules)
    requires Lawful(r)
    ensures r.statusSpec("")
  {
  }

  lemma SameTypeUnlessChanged(r: Rules, t: Monitor, n: Monitor)
    requires !Changed(r, t, n)
    ensures t.typ == n.typ
  {
    assert Exported(r, t).typ == Some(t.typ) && Exported(r, n).typ == Some(n.typ);
  }

  lemma UnchangedHasNoBlank(r: Rules, n: Monitor, t: Monitor)
    requires Settled(t) && !Changed(r, t, n)
    ensures !(t.typ == Http && HasBlank(n))
  {
    assert Exported(r, t).typ == Some(t.typ) && Exported(r, n).typ == Some(n.typ);
    if t.typ == Http && HasBlank(n) { BlankIsAChange(r, t, n); }
  }

  lemma RowDiffers(r: Rules, p: Patch, n0: Monitor, n: Monitor, t: Monitor)
    requires Echo(p, n0, t) && t == Stored(n) && n == n0.(headers := n.headers, body := n.body, enabled := n.enabled)
    ensures Changed(r, t, n) <==> t.typ == Http && HasBlank(n0)
  {
    assert Echo(p, n, t);
    StoredDiffers(r, p, n, t);
  }
}
