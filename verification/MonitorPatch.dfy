/** PATCH on a monitor (applyMonitorPatch, internal/api/monitors.go) and the create request it shares
    its rules with. Patched is the merge as a chain of stages in the code's order; the class applies
    the same stages to a record in place. */
module MonitorPatch {
  import opened Prelude
  import opened MonitorRules

  datatype AssertionEdit = Leave | Malformed | Clear | Replace(wire: Assertion)

  datatype Patch = Patch(
    name: Option<string>, typ: Option<MonitorType>, target: Option<string>,
    intervalS: Option<int>, timeoutS: Option<int>, retries: Option<int>, recovery: Option<int>,
    verb: Option<string>, expectedStatus: Option<string>, keyword: Option<string>,
    keywordMode: Option<KeywordMode>, followRedirects: Option<bool>, headers: Option<Headers>,
    body: Option<string>, sslWarnDays: Option<int>, repeatAfterS: Option<int>, enabled: Option<bool>,
    captureResponse: Option<bool>, minTLS: Option<string>, trustedCert: Option<string>,
    tags: Option<Headers>, pushIntervalS: Option<int>, pushGraceS: Option<int>,
    pushTimezone: Option<string>, assertion: AssertionEdit, dns: Option<DnsCheck>,
    domainWarnDays: Option<int>, channelIds: Option<seq<int>>)

  datatype Outcome = Merged(m: Monitor) | Refused(field: Field)

  // ------------------------------------------------------------------------- the merge

  /** Sent, a field takes the request's value; a type that stops reading a setting the request leaves
      out goes back to its default. */
  function Merge(r: Rules, m: Monitor, p: Patch, now: int): Monitor {
    var typ, target := p.typ.GetOr(m.typ), p.target.GetOr(m.target);
    var dropHTTP, dropTLS := typ != m.typ && !ReadsHTTP(typ), typ != m.typ && !ReadsTLS(typ);
    var dropKeyword := dropHTTP && p.keyword.None? && p.keywordMode.None?;
    var pin := MergedPin(r, m, p, typ, target);
    Monitor(
      p.name.GetOr(m.name), typ, target,
      p.intervalS.GetOr(m.intervalS), p.timeoutS.GetOr(m.timeoutS), p.retries.GetOr(m.retries), p.recovery.GetOr(m.recovery),
      if p.verb.Some? then r.verb(p.verb.value).GetOr(m.verb) else if dropHTTP then GET else m.verb,
      p.expectedStatus.GetOr(if dropHTTP then DefaultStatus else m.expectedStatus),
      if dropKeyword then "" else p.keyword.GetOr(m.keyword),
      if dropKeyword then AbsentOk else p.keywordMode.GetOr(m.keywordMode),
      p.followRedirects.GetOr(m.followRedirects),
      p.headers.GetOr(if dropHTTP then map[] else m.headers),
      p.body.GetOr(if dropHTTP then "" else m.body),
      MergedAssertion(r, m, p),
      p.sslWarnDays.GetOr(if dropTLS then DefaultSSLWarnDays else m.sslWarnDays),
      p.enabled.GetOr(m.enabled),
      MergedDns(r, m, p),
      if typ != Domain then 0 else p.domainWarnDays.GetOr(if m.typ != Domain then DefaultDomainWarnDays else m.domainWarnDays),
      if p.minTLS.Some? then ParseTLS(p.minTLS.value).GetOr(0) else if dropTLS then 0 else m.minTLS,
      p.captureResponse.GetOr(m.captureResponse), p.repeatAfterS.GetOr(m.repeatAfterS),
      p.pushIntervalS.GetOr(m.pushIntervalS), p.pushGraceS.GetOr(m.pushGraceS),
      if p.pushTimezone.Some? then TrimSpace(p.pushTimezone.value) else m.pushTimezone,
      pin, if pin == "" then 0 else if pin == m.pin then m.pinAt else now,
      if p.tags.Some? then r.tags(p.tags.value, m.tags).GetOr(m.tags) else m.tags,
      if p.channelIds.Some? then p.channelIds else m.channelIds)
  }

  function MergedAssertion(r: Rules, m: Monitor, p: Patch): Option<Assertion> {
    match p.assertion
    case Replace(w) => Some(SavedAssertion(r, w))
    case Clear => None
    case _ => m.assertion
  }

  function MergedDns(r: Rules, m: Monitor, p: Patch): Option<DnsCheck> {
    if p.dns.Some? then DnsEdit(r, p.dns.value, m.dns)
    else if p.typ.Some? && p.typ.value != Dns then None
    else m.dns
  }

  /** A pin survives only on a monitor that can use one. */
  function MergedPin(r: Rules, m: Monitor, p: Patch, typ: MonitorType, target: string): string {
    if !PinCarrier(r, typ, target) then ""
    else if p.trustedCert.Some? then TrustedCert(r, p.trustedCert, typ, target).GetOr(m.pin)
    else m.pin
  }

  // ---------------------------------------------------------------------- the refusals

  // Each is judged on n, the merged monitor, and on what the request sent; m is the monitor before.

  function IdentityProblem(m: Monitor, p: Patch): Problem {
    if p.name.Some? && TrimSpace(p.name.value) == "" then Bad(FName)
    else if p.name.Some? && p.name.value != m.name && !NameOk(p.name.value) then Bad(FName)
    else if p.typ.Some? && ((p.typ.value == Push) != (m.typ == Push) || !KnownType(p.typ.value)) then Bad(FType)
    else if p.target.Some? && TrimSpace(p.target.value) == "" then Bad(FTarget)
    else if !TextFits(p.target, m.target, MaxTextLen) then Bad(FTarget)
    else Fine
  }

  function TimingProblem(n: Monitor, p: Patch): Problem {
    if p.intervalS.Some? && !IntervalInRange(n.intervalS) then Bad(FInterval)
    else if p.timeoutS.Some? && !TimeoutInRange(n.timeoutS) then Bad(FTimeout)
    else if p.timeoutS.Some? && !TimeoutFits(n.typ, n.intervalS, n.timeoutS) then Bad(FTimeout)
    else if p.intervalS.Some? && !TimeoutFits(n.typ, n.intervalS, n.timeoutS) then Bad(FInterval)
    else if p.retries.Some? && !RetriesInRange(n.retries) then Bad(FRetries)
    else if p.recovery.Some? && !RecoveryInRange(n.recovery) then Bad(FRecovery)
    else Fine
  }

  /** A value longer than its limit is refused only when it is new. */
  predicate TextFits(sent: Option<string>, held: string, limit: nat) {
    sent.None? || sent.value == held || |sent.value| <= limit
  }

  function RequestProblem(r: Rules, m: Monitor, p: Patch): Problem {
    if p.verb.Some? && r.verb(p.verb.value).None? then Bad(FMethod)
    else if !TextFits(p.expectedStatus, m.expectedStatus, MaxTextLen) then Bad(FExpectedStatus)
    else if p.expectedStatus.Some? && !r.statusSpec(p.expectedStatus.value) then Bad(FExpectedStatus)
    else if !TextFits(p.keyword, m.keyword, MaxTextLen) then Bad(FKeyword)
    else if p.keywordMode.Some? && p.keywordMode.value.OtherMode? then Bad(FKeywordMode)
    else if p.headers.Some? && p.headers.value != m.headers && !r.headersFit(p.headers.value) then Bad(FHeaders)
    else if p.headers.Some? && !Sendable(r, p.headers.value) then Bad(FHeaders)
    else if !TextFits(p.body, m.body, MaxBodyLen) then Bad(FBody)
    else Fine
  }

  function AlertProblem(r: Rules, m: Monitor, p: Patch): Problem {
    if p.sslWarnDays.Some? && !SSLWarnInRange(p.sslWarnDays.value) then Bad(FSSLWarnDays)
    else if p.repeatAfterS.Some? && !RepeatInRange(p.repeatAfterS.value) then Bad(FRepeatAfter)
    else if p.minTLS.Some? && p.minTLS.value != "" && ParseTLS(p.minTLS.value).None? then Bad(FMinTLS)
    else if p.tags.Some? && r.tags(p.tags.value, m.tags).None? then Bad(FTags)
    else Fine
  }

  /** assertionLimitProblem: a path or value equal to the stored one is not measured. */
  predicate AssertionFits(w: Assertion, stored: Option<Assertion>) {
    && ((stored.Some? && w.path == stored.value.path) || |w.path| <= MaxTextLen)
    && ((stored.Some? && w.expected == stored.value.expected) || |w.expected| <= MaxTextLen)
  }

  function AssertionProblem(r: Rules, m: Monitor, p: Patch, n: Monitor): Problem {
    if p.assertion.Malformed? then Bad(FAssertion)
    else if p.assertion.Replace? && !AssertionFits(p.assertion.wire, m.assertion) then Bad(FAssertion)
    else if p.assertion.Replace? && !r.assertion(p.assertion.wire) then Bad(FAssertion)
    else if n.assertion.Some? && (!p.assertion.Leave? || p.typ.Some?) && n.typ != Http then Bad(FAssertion)
    else if (p.verb.Some? || p.keyword.Some? || p.keywordMode.Some? || !p.assertion.Leave? || p.typ.Some?)
            && !HeadBodyOk(n.typ, n.verb, n.keyword, n.keywordMode, n.assertion.Some?) then Bad(FMethod)
    else Fine
  }

  function DnsProblem(r: Rules, m: Monitor, p: Patch, n: Monitor): Problem {
    if p.dns.Some? && DnsEdit(r, p.dns.value, m.dns).None? then Bad(FDns)
    else if (p.typ.Some? || p.dns.Some?) && !DnsTypeOk(n.typ, n.dns) then Bad(FDns)
    else Fine
  }

  function DomainProblem(p: Patch, n: Monitor): Problem {
    if p.domainWarnDays.Some? && !DomainWarnInRange(p.domainWarnDays.value) then Bad(FDomainWarnDays)
    else if n.typ != Domain then (if p.domainWarnDays.Some? then Bad(FDomainWarnDays) else Fine)
    else if p.intervalS.Some? || p.typ.Some? then DomainTypeProblem(n.typ, n.intervalS, None)
    else Fine
  }

  /** The settings a PATCH answers for: sent with a value the monitor did not hold, or with a new type. */
  predicate Judged(m: Monitor, p: Patch, n: Monitor, s: Setting) {
    var retyped := n.typ != m.typ;
    match s
    case SMethod => p.verb.Some? && (retyped || n.verb != m.verb)
    case SExpectedStatus => p.expectedStatus.Some? && (retyped || n.expectedStatus != m.expectedStatus)
    case SKeyword => (p.keyword.Some? || p.keywordMode.Some?)
                     && (retyped || n.keyword != m.keyword || n.keywordMode != m.keywordMode)
    case SHeaders => p.headers.Some? && (retyped || n.headers != m.headers)
    case SBody => p.body.Some? && (retyped || n.body != m.body)
    case SSSLWarnDays => p.sslWarnDays.Some? && (retyped || n.sslWarnDays != m.sslWarnDays)
    case SMinTLS => p.minTLS.Some? && (retyped || n.minTLS != m.minTLS)
  }

  function JudgedSettings(m: Monitor, p: Patch, n: Monitor): set<Setting> {
    set s | s in UnreadSettings && Judged(m, p, n, s)
  }

  function PushProblem(r: Rules, p: Patch, n: Monitor): Problem {
    var window := p.pushIntervalS.Some? || p.pushGraceS.Some?;
    if window && n.typ != Push then Bad(FPushInterval)
    else if window && PushRangeProblem(n.pushIntervalS, n.pushGraceS) != Fine then PushRangeProblem(n.pushIntervalS, n.pushGraceS)
    else if p.pushTimezone.Some? || p.pushIntervalS.Some? then PushTimezoneProblem(r, n.typ, n.pushIntervalS, n.pushTimezone)
    else Fine
  }

  function TargetProblem(r: Rules, m: Monitor, p: Patch, n: Monitor): Problem {
    if (n.target != m.target || n.typ != m.typ) && !r.target(n.typ, n.target) then Bad(FTarget)
    else if p.trustedCert.Some? && TrustedCert(r, p.trustedCert, n.typ, n.target).None? then Bad(FTrustedCert)
    else Fine
  }

  function Then(a: Problem, b: Problem): Problem { if a == Fine then b else a }

  /** The first refusal, in the order applyMonitorPatch reports them. */
  function PatchProblem(r: Rules, m: Monitor, p: Patch, n: Monitor): Problem {
    Then(IdentityProblem(m, p),
    Then(TimingProblem(n, p),
    Then(RequestProblem(r, m, p),
    Then(AlertProblem(r, m, p),
    Then(AssertionProblem(r, m, p, n),
    Then(DnsProblem(r, m, p, n),
    Then(DomainProblem(p, n),
    Then(FirstIdle(n, JudgedSettings(m, p, n), 0),
    Then(PushProblem(r, p, n),
         TargetProblem(r, m, p, n))))))))))
  }

  /** applyMonitorPatch: the monitor a PATCH leaves, or the field it is refused for. */
  function Patched(r: Rules, m: Monitor, p: Patch, now: int): Outcome {
    var n := Merge(r, m, p, now);
    match PatchProblem(r, m, p, n)
    case Fine => Merged(n)
    case Bad(f) => Refused(f)
  }

  /** An accepted PATCH passed every rule. */
  lemma AllFine(r: Rules, m: Monitor, p: Patch, n: Monitor)
    requires PatchProblem(r, m, p, n) == Fine
    ensures IdentityProblem(m, p) == TimingProblem(n, p) == RequestProblem(r, m, p) == AlertProblem(r, m, p) == Fine
    ensures AssertionProblem(r, m, p, n) == DnsProblem(r, m, p, n) == DomainProblem(p, n) == Fine
    ensures PushProblem(r, p, n) == TargetProblem(r, m, p, n) == Fine
    ensures forall s :: Judged(m, p, n, s) ==> !IdleSetting(n, s)
  {
    FirstIdleMeaning(n, JudgedSettings(m, p, n));
    forall s | Judged(m, p, n, s) ensures s in JudgedSettings(m, p, n) {
      SettingIsListed(s);
    }
  }
}
