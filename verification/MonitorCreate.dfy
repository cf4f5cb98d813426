/** Creating a monitor (validateCreateMonitor and handleCreateMonitor, internal/api/monitors.go), and
    what holds of a monitor over every run of creates and patches. */
module MonitorCreate {
  import opened Prelude
  import opened MonitorRules
  import opened MonitorPatch
  import opened MonitorInvariant

  datatype CreateRequest = CreateRequest(
    name: string, typ: MonitorType, target: string,
    intervalS: int, timeoutS: int, retries: Option<int>, recovery: Option<int>,
    verb: string, expectedStatus: string, keyword: string, keywordMode: KeywordMode,
    followRedirects: Option<bool>, headers: Headers, body: string, sslWarnDays: Option<int>,
    repeatAfterS: Option<int>, enabled: Option<bool>, captureResponse: Option<bool>,
    minTLS: Option<string>, trustedCert: Option<string>, tags: Headers,
    pushIntervalS: Option<int>, pushGraceS: Option<int>, pushTimezone: Option<string>,
    assertion: Option<Assertion>, dns: Option<DnsCheck>, domainWarnDays: Option<int>,
    channelIds: Option<seq<int>>)

  // ---------------------------------------------------------------------- the refusals

  function CreateIdentityProblem(r: Rules, q: CreateRequest): Problem {
    if TrimSpace(q.name) == "" || !NameOk(q.name) then Bad(FName)
    else if (q.target == "") != (q.typ == Push) then Bad(FTarget)
    else if !KnownType(q.typ) then Bad(FType)
    else if |q.target| > MaxTextLen then Bad(FTarget)
    else if |q.keyword| > MaxTextLen then Bad(FKeyword)
    else if |q.expectedStatus| > MaxTextLen then Bad(FExpectedStatus)
    else if |q.body| > MaxBodyLen then Bad(FBody)
    else if !r.headersFit(q.headers) then Bad(FHeaders)
    else if q.assertion.Some? && !AssertionFits(q.assertion.value, None) then Bad(FAssertion)
    else Fine
  }

  function CreatePushProblem(r: Rules, q: CreateRequest): Problem {
    if q.typ != Push && (q.pushIntervalS.Some? || q.pushGraceS.Some?) then Bad(FPushInterval)
    else if q.typ == Push && q.pushIntervalS.None? then Bad(FPushInterval)
    else if q.typ == Push && PushRangeProblem(q.pushIntervalS.value, q.pushGraceS.GetOr(DefaultPushGraceS)) != Fine
    then PushRangeProblem(q.pushIntervalS.value, q.pushGraceS.GetOr(DefaultPushGraceS))
    else if q.pushTimezone.Some? then PushTimezoneProblem(r, q.typ, q.pushIntervalS.GetOr(0), q.pushTimezone.value)
    else Fine
  }

  /** Judged on the interval and timeout the monitor is saved with, defaults included. */
  function CreateTimingProblem(q: CreateRequest): Problem {
    var interval := if q.intervalS != 0 then q.intervalS else if q.typ == Domain then DefaultDomainIntervalS else 60;
    var timeout := if q.timeoutS != 0 then q.timeoutS else 10;
    if q.intervalS != 0 && !IntervalInRange(q.intervalS) then Bad(FInterval)
    else if q.timeoutS != 0 && !TimeoutInRange(q.timeoutS) then Bad(FTimeout)
    else if !TimeoutFits(q.typ, interval, timeout) then Bad(if q.timeoutS != 0 then FTimeout else FInterval)
    else Fine
  }

  function CreateRequestProblem(r: Rules, q: CreateRequest): Problem {
    if r.verb(q.verb).None? then Bad(FMethod)
    else if !r.statusSpec(q.expectedStatus) then Bad(FExpectedStatus)
    else if q.keywordMode.OtherMode? then Bad(FKeywordMode)
    else if !HeadBodyOk(q.typ, r.verb(q.verb).value, q.keyword, q.keywordMode, q.assertion.Some?) then Bad(FMethod)
    else if q.sslWarnDays.Some? && !SSLWarnInRange(q.sslWarnDays.value) then Bad(FSSLWarnDays)
    else if q.retries.Some? && !RetriesInRange(q.retries.value) then Bad(FRetries)
    else if q.recovery.Some? && !RecoveryInRange(q.recovery.value) then Bad(FRecovery)
    else if q.repeatAfterS.Some? && !RepeatInRange(q.repeatAfterS.value) then Bad(FRepeatAfter)
    else if q.minTLS.Some? && ParseTLS(q.minTLS.value).None? then Bad(FMinTLS)
    else if TrustedCert(r, q.trustedCert, q.typ, q.target).None? then Bad(FTrustedCert)
    else if !r.target(q.typ, q.target) then Bad(FTarget)
    else if r.tags(q.tags, map[]).None? then Bad(FTags)
    else if !Sendable(r, q.headers) then Bad(FHeaders)
    else Fine
  }

  function CreateKindProblem(r: Rules, q: CreateRequest): Problem {
    if q.assertion.Some? && q.typ != Http then Bad(FAssertion)
    else if q.assertion.Some? && !r.assertion(q.assertion.value) then Bad(FAssertion)
    else if q.dns.Some? && DnsFromWire(r, q.dns.value).None? then Bad(FDns)
    else if !DnsTypeOk(q.typ, q.dns) then Bad(FDns)
    else if q.domainWarnDays.Some? && !DomainWarnInRange(q.domainWarnDays.value) then Bad(FDomainWarnDays)
    else DomainTypeProblem(q.typ, q.intervalS, q.domainWarnDays)
  }

  /** The first refusal, in the order validateCreateMonitor reports them. */
  function CreateProblem(r: Rules, q: CreateRequest): Problem {
    Then(CreateIdentityProblem(r, q),
    Then(CreatePushProblem(r, q),
    Then(CreateTimingProblem(q),
    Then(CreateRequestProblem(r, q),
    Then(FirstIdle(Created(r, q, 0), AllSettings(), 0),
         CreateKindProblem(r, q))))))
  }

  function AllSettings(): set<Setting> { {SMethod, SExpectedStatus, SKeyword, SHeaders, SBody, SSSLWarnDays, SMinTLS} }

  /** The monitor handleCreateMonitor hands to the store. */
  function Created(r: Rules, q: CreateRequest, now: int): Monitor {
    var pin := TrustedCert(r, q.trustedCert, q.typ, q.target).GetOr("");
    Monitor(
      q.name, q.typ, q.target, q.intervalS, q.timeoutS,
      q.retries.GetOr(if q.typ == Domain then 0 else 2), q.recovery.GetOr(0),
      r.verb(q.verb).GetOr(Unset), q.expectedStatus, q.keyword, q.keywordMode,
      q.followRedirects.GetOr(true), q.headers, q.body,
      if q.assertion.Some? then Some(SavedAssertion(r, q.assertion.value)) else None,
      q.sslWarnDays.GetOr(0), q.enabled.GetOr(true),
      if q.dns.Some? then DnsFromWire(r, q.dns.value) else None,
      if q.typ == Domain then q.domainWarnDays.GetOr(DefaultDomainWarnDays) else 0,
      if q.minTLS.Some? then ParseTLS(q.minTLS.value).GetOr(0) else 0,
      q.captureResponse.GetOr(true), q.repeatAfterS.GetOr(DefaultRepeatAfterS),
      if q.typ == Push then q.pushIntervalS.GetOr(0) else 0,
      if q.typ == Push then q.pushGraceS.GetOr(DefaultPushGraceS) else 0,
      if q.typ == Push then TrimSpace(q.pushTimezone.GetOr("")) else "",
      pin, if pin == "" then 0 else now,
      r.tags(q.tags, map[]).GetOr(map[]), q.channelIds)
  }

  // ------------------------------------------------------------- a create starts sound

  lemma CreateIdentity(r: Rules, q: CreateRequest, now: int)
    requires Lawful(r) && CreateIdentityProblem(r, q) == CreateRequestProblem(r, q) == Fine
    ensures var m := Created(r, q, now);
      && KnownType(m.typ) && TrimSpace(m.name) != "" && (m.typ != Push ==> TrimSpace(m.target) != "") && (m.typ == Push ==> m.target == "")
      && r.tags(m.tags, m.tags) == Some(m.tags)
  {
    hide TrimSpace, Sendable, HeadBodyOk, TrustedCert, DnsFromWire, SavedAssertion;
  }

  lemma CreateAssertion(r: Rules, q: CreateRequest, now: int)
    requires Lawful(r) && CreateKindProblem(r, q) == Fine
    ensures var m := Created(r, q, now); m.assertion.Some? ==> m.typ == Http && SoundAssertion(r, m.assertion.value)
  {
    hide TrimSpace, TrustedCert, DnsFromWire;
  }

  lemma CreateDns(r: Rules, q: CreateRequest, now: int)
    requires CreateKindProblem(r, q) == Fine
    ensures var m := Created(r, q, now); DnsTypeOk(m.typ, m.dns) && (m.dns.Some? ==> SoundDns(r, m.dns.value))
  {
    hide TrimSpace, TrustedCert, DnsFromWire, SavedAssertion, SoundDns;
    if q.dns.Some? { DnsEditSound(r, q.dns.value, None); }
  }

  lemma CreateKind(r: Rules, q: CreateRequest, now: int)
    requires Lawful(r) && CreateIdentityProblem(r, q) == CreateRequestProblem(r, q) == CreateKindProblem(r, q) == Fine
    ensures SoundKind(r, Stored(Created(r, q, now)))
  {
    hide Lawful, CreateIdentityProblem, CreateRequestProblem, CreateKindProblem, TrimSpace, TrustedCert, SavedAssertion, DnsFromWire,
      SoundDns, SoundAssertion, Stored;
    CreateIdentity(r, q, now);
    CreateAssertion(r, q, now);
    CreateDns(r, q, now);
    StoreKeepsKind(r, Created(r, q, now));
  }

  lemma CreateTiming(r: Rules, q: CreateRequest, now: int)
    requires CreateTimingProblem(q) == CreateRequestProblem(r, q) == CreateKindProblem(r, q) == Fine
    ensures SoundTiming(Stored(Created(r, q, now)))
  {
  }

  lemma CreateSettings(r: Rules, q: CreateRequest, now: int)
    requires r.statusSpec(DefaultStatus) && CreateRequestProblem(r, q) == CreateKindProblem(r, q) == Fine
    ensures SoundRequest(r, Stored(Created(r, q, now)))
  {
  }

  lemma CreateNothingIdle(r: Rules, q: CreateRequest, now: int)
    requires FirstIdle(Created(r, q, 0), AllSettings(), 0) == Fine
    ensures NothingIdle(Stored(Created(r, q, now)))
  {
    var m := Created(r, q, 0);
    FirstIdleMeaning(m, AllSettings());
    forall s: Setting ensures !IdleSetting(Stored(Created(r, q, now)), s) {
      match s { case SMethod => case SExpectedStatus => case SKeyword => case SHeaders => case SBody => case SSSLWarnDays => case SMinTLS => }
      assert s in AllSettings() && !IdleSetting(m, s);
    }
  }

  lemma CreatePush(r: Rules, q: CreateRequest, now: int)
    requires CreatePushProblem(r, q) == Fine
    ensures SoundPush(r, Stored(Created(r, q, now)))
  {
    if q.pushTimezone.Some? { TrimIdempotent(q.pushTimezone.value); }
  }

  lemma CreatePin(r: Rules, q: CreateRequest, now: int)
    requires forall l :: r.fingerprint(l).Some? ==> var p := r.fingerprint(l).value; TrimSpace(p) != "" && r.fingerprint(p) == Some(p)
    requires CreateRequestProblem(r, q) == Fine
    ensures SoundPin(r, Stored(Created(r, q, now)))
  {
  }

  lemma CreateAllFine(r: Rules, q: CreateRequest)
    requires CreateProblem(r, q) == Fine
    ensures CreateIdentityProblem(r, q) == CreatePushProblem(r, q) == CreateTimingProblem(q) == CreateRequestProblem(r, q) == Fine
    ensures FirstIdle(Created(r, q, 0), AllSettings(), 0) == CreateKindProblem(r, q) == Fine
  {
  }

  lemma SoundInParts(r: Rules, m: Monitor)
    requires SoundTiming(m) && SoundKind(r, m) && SoundRequest(r, m) && NothingIdle(m) && SoundPush(r, m) && SoundPin(r, m)
    ensures Sound(r, m)
  {
  }

  /** Every monitor a create accepts is stored sound. */
  lemma CreateIsSound(r: Rules, q: CreateRequest, now: int)
    requires Lawful(r) && CreateProblem(r, q) == Fine
    ensures Sound(r, Stored(Created(r, q, now))) && Settled(Stored(Created(r, q, now)))
  {
    CreateAllFine(r, q);
    CreateKind(r, q, now);
    CreateTiming(r, q, now);
    CreateSettings(r, q, now);
    CreateNothingIdle(r, q, now);
    CreatePush(r, q, now);
    CreatePin(r, q, now);
    SoundInParts(r, Stored(Created(r, q, now)));
    StoredIdempotent(Created(r, q, now));
  }

  // ------------------------------------------------------------------------- every run

  datatype Edit = Edit(patch: Patch, at: int)

  /** The stored monitor after one edit: an accepted one is merged and written, a refused one changes
      nothing. */
  function Next(r: Rules, m: Monitor, e: Edit): Monitor {
    match Patched(r, m, e.patch, e.at)
    case Merged(n) => Stored(n)
    case Refused(_) => m
  }

  lemma NextKeepsSound(r: Rules, m: Monitor, e: Edit)
    requires Lawful(r) && Sound(r, m) && Settled(m)
    ensures Sound(r, Next(r, m, e)) && Settled(Next(r, m, e))
  {
    var out := Patched(r, m, e.patch, e.at);
    if out.Merged? {
      PatchKeepsSound(r, m, e.patch, e.at);
      StoreKeepsSound(r, out.m);
    }
  }

  /** The stored monitor after the first n edits. */
  function After(r: Rules, m: Monitor, edits: seq<Edit>, n: nat): Monitor
    requires n <= |edits|
  {
    RunOf((s, e) => Next(r, s, e), m, edits, n)
  }

  /** Over every run of a create and patches, the stored monitor is sound: its timeout fits its
      interval, its dns settings, assertion, body check, pin and push zone suit its type, and no
      setting its type never reads holds a value. */
  lemma EveryRunIsSound(r: Rules, q: CreateRequest, now: int, edits: seq<Edit>, n: nat)
    requires Lawful(r) && CreateProblem(r, q) == Fine && n <= |edits|
    ensures Sound(r, After(r, Stored(Created(r, q, now)), edits, n))
    ensures Settled(After(r, Stored(Created(r, q, now)), edits, n))
  {
    var step := (s, e) => Next(r, s, e);
    var kept := m => Sound(r, m) && Settled(m);
    CreateIsSound(r, q, now);
    forall s, e | kept(s) ensures kept(step(s, e)) {
      NextKeepsSound(r, s, e);
    }
    RunKeeps(step, kept, Stored(Created(r, q, now)), edits, n);
    assert kept(After(r, Stored(Created(r, q, now)), edits, n));
  }

  // -------------------------------------------------------------- a push monitor's target

  /** A create refuses a push monitor with a target; a PATCH does not, because the rules for a target
      have no case for push. A push monitor therefore has no target after an accepted PATCH exactly
      when the request sent none. */
  lemma PushTargetStaysEmpty(r: Rules, m: Monitor, p: Patch, now: int)
    requires m.typ == Push && m.target == "" && Patched(r, m, p, now).Merged?
    ensures Patched(r, m, p, now).m.target == "" <==> p.target.None?
  {
    AllFine(r, m, p, Merge(r, m, p, now));
  }

  function JustTarget(target: string): Patch {
    Patch(None, None, Some(target), None, None, None, None, None, None, None, None, None, None, None, None, None, None,
          None, None, None, None, None, None, None, Leave, None, None, None)
  }

  /** The request that shows it: every sound push monitor accepts a target of its own. */
  lemma PushTargetIsAccepted(r: Rules, m: Monitor, now: int)
    requires Lawful(r) && m.typ == Push && m.target == ""
    ensures var out := Patched(r, m, JustTarget("x"), now); out.Merged? && out.m.target == "x"
  {
    var p := JustTarget("x");
    var n := Merge(r, m, p, now);
    FirstIdleMeaning(n, JudgedSettings(m, p, n));
  }
}
