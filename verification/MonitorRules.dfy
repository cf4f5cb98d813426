/** A stored monitor, the requests that create and change one, and the single-field and
    cross-field rules both are held to (internal/api/monitors.go, unread_settings.go, dns_check.go,
    domain_check.go, trusted_cert.go; defaults and columns in internal/store/monitors.go). */
module MonitorRules {
  import opened Prelude

  datatype MonitorType = Http | Tcp | Ping | Ssl | Dns | Domain | Push | OtherType(word: string)
  datatype Verb = Unset | GET | HEAD | POST | PUT | PATCH | DELETE | OPTIONS
  datatype KeywordMode = UnsetMode | AbsentOk | MustContain | MustNotContain | OtherMode(word: string)

  /** The request field a refusal names. */
  datatype Field =
    | FName | FType | FTarget | FInterval | FTimeout | FRetries | FRecovery | FMethod | FExpectedStatus
    | FKeyword | FKeywordMode | FHeaders | FBody | FSSLWarnDays | FRepeatAfter | FMinTLS | FTrustedCert
    | FTags | FAssertion | FDns | FDomainWarnDays | FPushInterval | FPushGrace | FPushTimezone

  datatype Problem = Fine | Bad(field: Field)

  type Headers = map<string, string>
  datatype Assertion = Assertion(path: string, operator: string, expected: string)
  datatype DnsCheck = DnsCheck(recordType: string, expected: seq<string>, resolver: string)

  datatype Monitor = Monitor(
    name: string, typ: MonitorType, target: string,
    intervalS: int, timeoutS: int, retries: int, recovery: int,
    verb: Verb, expectedStatus: string, keyword: string, keywordMode: KeywordMode,
    followRedirects: bool, headers: Headers, body: string,
    assertion: Option<Assertion>, sslWarnDays: int, enabled: bool,
    dns: Option<DnsCheck>, domainWarnDays: int, minTLS: int,
    captureResponse: bool, repeatAfterS: int,
    pushIntervalS: int, pushGraceS: int, pushTimezone: string,
    pin: string, pinAt: int, tags: Headers, channelIds: Option<seq<int>>)

  /** Checks the model takes as given: parsers and name lookups of other packages. */
  datatype Rules = Rules(
    verb: string -> Option<Verb>,
    statusSpec: string -> bool,
    headersFit: Headers -> bool,
    header: (string, string) -> bool,
    fold: string -> string,
    target: (MonitorType, string) -> bool,
    secureTarget: string -> bool,
    fingerprint: string -> Option<string>,
    zone: string -> bool,
    tags: (Headers, Headers) -> Option<Headers>,
    assertion: Assertion -> bool,
    compact: string -> string,
    recordType: string -> bool,
    expectedValue: (string, string) -> bool,
    dnsKey: (string, string) -> string,
    resolver: string -> bool)

  /** What the callers of those checks rely on: a value they accepted and stored is accepted again and
      stored unchanged, an accepted assertion is saved in a form that saves as itself, and a target that can be dialled
      is not blank. */
  ghost predicate Lawful(r: Rules) {
    && (forall t, s :: r.tags(t, s).Some? ==> var u := r.tags(t, s).value; r.tags(t, u) == Some(u) && r.tags(u, u) == Some(u))
    && (forall a :: r.assertion(a) ==> r.assertion(SavedAssertion(r, a)) && SavedAssertion(r, SavedAssertion(r, a)) == SavedAssertion(r, a))
    && (forall l :: r.fingerprint(l).Some? ==> var p := r.fingerprint(l).value; TrimSpace(p) != "" && r.fingerprint(p) == Some(p))
    && (forall t, s :: KnownType(t) && r.target(t, s) && t != Push ==> TrimSpace(s) != "") && (forall s :: r.target(Push, s))
    && r.statusSpec(DefaultStatus) && r.statusSpec("")
    && (forall v :: r.verb(VerbName(v)) == Some(v)) && r.tags(map[], map[]) == Some(map[])
  }

  /** jsonAssertionFromWire on a valid wire value: the expected text in compact form. */
  function SavedAssertion(r: Rules, w: Assertion): Assertion {
    w.(expected := if w.expected == "" then "" else r.compact(w.expected))
  }

  const DefaultStatus := "200-299"
  const DefaultSSLWarnDays := 14
  const DefaultDomainWarnDays := 30
  const MinDomainIntervalS := 21600
  const DefaultDomainIntervalS := 86400
  const DefaultPushGraceS := 60
  const DefaultRepeatAfterS := 900
  const MaxTextLen := 2048
  const MaxBodyLen := 65536

  function VerbName(v: Verb): string {
    match v
    case Unset => "" case GET => "GET" case HEAD => "HEAD" case POST => "POST"
    case PUT => "PUT" case PATCH => "PATCH" case DELETE => "DELETE" case OPTIONS => "OPTIONS"
  }

  // --------------------------------------------------------------------- single fields

  /** checker.RequestHeaderProblem: every line can be sent, and no two names are one header. */
  predicate Sendable(r: Rules, h: Headers) {
    && (forall k :: k in h ==> r.header(k, h[k]))
    && (forall j, k :: j in h && k in h && j != k ==> r.fold(j) != r.fold(k))
  }

  predicate NameOk(name: string) { !HasControlCharacter(name) && |name| <= 100 }

  predicate KnownType(t: MonitorType) { !t.OtherType? }

  predicate IntervalInRange(s: int) { 20 <= s <= 86400 }
  predicate TimeoutInRange(s: int) { 1 <= s <= 120 }
  predicate RetriesInRange(n: int) { 0 <= n <= 10 }
  predicate RecoveryInRange(n: int) { 1 <= n <= 10 }
  predicate SSLWarnInRange(n: int) { 1 <= n <= 365 }
  predicate DomainWarnInRange(n: int) { 0 <= n <= 365 }
  predicate RepeatInRange(n: int) { n == 0 || 60 <= n <= 86400 }

  function PushRangeProblem(interval: int, grace: int): Problem {
    if interval < 60 || interval > 2592000 then Bad(FPushInterval)
    else if grace < 0 || grace > 2592000 then Bad(FPushGrace)
    else Fine
  }

  predicate WholeDays(intervalS: int) { intervalS > 0 && intervalS % 86400 == 0 }

  function ParseTLS(version: string): Option<int> {
    if version == "1.0" then Some(769)
    else if version == "1.1" then Some(770)
    else if version == "1.2" then Some(771)
    else if version == "1.3" then Some(772)
    else None
  }

  function TLSLabel(v: int): string {
    if v == 769 then "1.0" else if v == 770 then "1.1" else if v == 771 then "1.2" else if v == 772 then "1.3" else ""
  }

  // ------------------------------------------------------------------- cross-field rules

  /** A check may take up to 80% of the time between checks; a push monitor is never dialled. */
  predicate TimeoutFits(typ: MonitorType, intervalS: int, timeoutS: int) {
    typ == Push || timeoutS * 5 <= intervalS * 4
  }

  /** A HEAD response has no body, so an http monitor that sends HEAD cannot check one. */
  predicate HeadBodyOk(typ: MonitorType, verb: Verb, keyword: string, mode: KeywordMode, hasAssertion: bool) {
    typ != Http || verb != HEAD
    || !((keyword != "" && (mode == MustContain || mode == MustNotContain)) || hasAssertion)
  }

  function PushTimezoneProblem(r: Rules, typ: MonitorType, interval: int, zone: string): Problem {
    if typ != Push then Bad(FPushTimezone)
    else if TrimSpace(zone) == "" then Fine
    else if !r.zone(TrimSpace(zone)) then Bad(FPushTimezone)
    else if !WholeDays(interval) then Bad(FPushTimezone)
    else Fine
  }

  function DomainTypeProblem(typ: MonitorType, intervalS: int, warnDays: Option<int>): Problem {
    if typ != Domain then (if warnDays.Some? then Bad(FDomainWarnDays) else Fine)
    else if intervalS != 0 && intervalS < MinDomainIntervalS then Bad(FInterval)
    else Fine
  }

  predicate DnsTypeOk(typ: MonitorType, d: Option<DnsCheck>) { (typ == Dns) == d.Some? }

  predicate PinCarrier(r: Rules, typ: MonitorType, target: string) {
    typ == Ssl || (typ == Http && r.secureTarget(target))
  }

  /** parseTrustedCert: the fingerprint in its stored spelling, "" for none, or a refusal. */
  function TrustedCert(r: Rules, fp: Option<string>, typ: MonitorType, target: string): Option<string> {
    if fp.None? || TrimSpace(fp.value) == "" then Some("")
    else match r.fingerprint(fp.value)
      case None => None
      case Some(pin) => if PinCarrier(r, typ, target) then Some(pin) else None
  }

  // ------------------------------------------------------------------- unread settings

  datatype Setting = SMethod | SExpectedStatus | SKeyword | SHeaders | SBody | SSSLWarnDays | SMinTLS

  /** The order a refusal reports the judged settings in. */
  const UnreadSettings: seq<Setting> := [SMethod, SExpectedStatus, SKeyword, SHeaders, SBody, SSSLWarnDays, SMinTLS]

  predicate ReadsHTTP(t: MonitorType) { t == Http }
  predicate ReadsTLS(t: MonitorType) { t == Http || t == Ssl }

  predicate ReadsSetting(t: MonitorType, s: Setting) {
    if s == SSSLWarnDays || s == SMinTLS then ReadsTLS(t) else ReadsHTTP(t)
  }

  /** The monitor holds a value in s other than the one it would have with the field left out. */
  predicate ChangesSetting(m: Monitor, s: Setting) {
    match s
    case SMethod => m.verb != Unset && m.verb != GET
    case SExpectedStatus => m.expectedStatus != "" && m.expectedStatus != DefaultStatus
    case SKeyword => m.keyword != "" && m.keywordMode != UnsetMode && m.keywordMode != AbsentOk
    case SHeaders => m.headers != map[]
    case SBody => m.body != ""
    case SSSLWarnDays => m.sslWarnDays != 0 && m.sslWarnDays != DefaultSSLWarnDays
    case SMinTLS => m.minTLS != 0
  }

  /** A setting this monitor's checks never read, holding a value that would change one that does. */
  predicate IdleSetting(m: Monitor, s: Setting) { !ReadsSetting(m.typ, s) && ChangesSetting(m, s) }

  function SettingField(s: Setting): Field {
    match s
    case SMethod => FMethod
    case SExpectedStatus => FExpectedStatus
    case SKeyword => FKeyword
    case SHeaders => FHeaders
    case SBody => FBody
    case SSSLWarnDays => FSSLWarnDays
    case SMinTLS => FMinTLS
  }

  /** unreadSettingsProblem: the first judged setting that is idle, in report order. */
  method UnreadSettingsProblem(m: Monitor, judged: set<Setting>) returns (p: Problem)
    ensures p == Fine <==> (forall s :: s in judged ==> !IdleSetting(m, s))
    ensures p == FirstIdle(m, judged, 0)
  {
    var i := 0;
    while i < |UnreadSettings|
      invariant 0 <= i <= |UnreadSettings|
      invariant FirstIdle(m, judged, 0) == FirstIdle(m, judged, i)
    {
      var s := UnreadSettings[i];
      if !ReadsSetting(m.typ, s) && s in judged {
        if ChangesSetting(m, s) {
          FirstIdleMeaning(m, judged);
          return Bad(SettingField(s));
        }
      }
      i := i + 1;
    }
    FirstIdleMeaning(m, judged);
    return Fine;
  }

  function FirstIdle(m: Monitor, judged: set<Setting>, i: nat): Problem
    requires i <= |UnreadSettings|
    decreases |UnreadSettings| - i
  {
    if i == |UnreadSettings| then Fine
    else if UnreadSettings[i] in judged && IdleSetting(m, UnreadSettings[i]) then Bad(SettingField(UnreadSettings[i]))
    else FirstIdle(m, judged, i + 1)
  }

  lemma SettingIsListed(s: Setting)
    ensures exists i :: 0 <= i < 7 && UnreadSettings[i] == s
  {
    match s
    case SMethod => assert UnreadSettings[0] == s;
    case SExpectedStatus => assert UnreadSettings[1] == s;
    case SKeyword => assert UnreadSettings[2] == s;
    case SHeaders => assert UnreadSettings[3] == s;
    case SBody => assert UnreadSettings[4] == s;
    case SSSLWarnDays => assert UnreadSettings[5] == s;
    case SMinTLS => assert UnreadSettings[6] == s;
  }

  lemma {:induction false} FirstIdleFrom(m: Monitor, judged: set<Setting>, i: nat)
    requires i <= |UnreadSettings|
    ensures FirstIdle(m, judged, i) == Fine <==>
              forall j :: i <= j < |UnreadSettings| && UnreadSettings[j] in judged ==> !IdleSetting(m, UnreadSettings[j])
    decreases |UnreadSettings| - i
  {
    if i < |UnreadSettings| { FirstIdleFrom(m, judged, i + 1); }
  }

  /** The list covers every setting, so judging it in order judges all of them. */
  lemma FirstIdleMeaning(m: Monitor, judged: set<Setting>)
    ensures FirstIdle(m, judged, 0) == Fine <==> forall s :: s in judged ==> !IdleSetting(m, s)
  {
    FirstIdleFrom(m, judged, 0);
    forall s | s in judged ensures exists i :: 0 <= i < 7 && UnreadSettings[i] == s { SettingIsListed(s); }
  }

  /** The judged settings and the type are all a verdict on unread settings reads. */
  ghost predicate SameSettings(a: Monitor, b: Monitor) {
    && a.typ == b.typ && a.verb == b.verb && a.expectedStatus == b.expectedStatus && a.keyword == b.keyword
    && a.keywordMode == b.keywordMode && a.headers == b.headers && a.body == b.body
    && a.sslWarnDays == b.sslWarnDays && a.minTLS == b.minTLS
  }

  lemma {:induction false} FirstIdleReadsFrom(a: Monitor, b: Monitor, judged: set<Setting>, i: nat)
    requires SameSettings(a, b) && i <= |UnreadSettings|
    ensures FirstIdle(a, judged, i) == FirstIdle(b, judged, i)
    decreases |UnreadSettings| - i
  {
    if i < |UnreadSettings| { FirstIdleReadsFrom(a, b, judged, i + 1); }
  }

  lemma FirstIdleReads(a: Monitor, b: Monitor, judged: set<Setting>)
    requires SameSettings(a, b)
    ensures FirstIdle(a, judged, 0) == FirstIdle(b, judged, 0)
  {
    FirstIdleReadsFrom(a, b, judged, 0);
  }

  // ---------------------------------------------------------------------- dns settings

  /** The first n values of a dns request, trimmed, when every one is acceptable and none is listed
      twice. */
  function DnsValues(r: Rules, recordType: string, raw: seq<string>, n: nat): Option<seq<string>>
    requires n <= |raw|
  {
    if n == 0 then Some([]) else
    match DnsValues(r, recordType, raw, n - 1)
    case None => None
    case Some(vs) =>
      var v := TrimSpace(raw[n - 1]);
      if r.expectedValue(recordType, v) && r.dnsKey(recordType, v) !in Keys(r, recordType, vs)
      then Some(vs + [v]) else None
  }

  function Keys(r: Rules, recordType: string, vs: seq<string>): set<string> {
    set v | v in vs :: r.dnsKey(recordType, v)
  }

  function DnsFromWire(r: Rules, w: DnsCheck): Option<DnsCheck> {
    if !r.recordType(w.recordType) || |w.expected| > 20 then None else
    match DnsValues(r, w.recordType, w.expected, |w.expected|)
    case None => None
    case Some(vs) =>
      var resolver := TrimSpace(w.resolver);
      if resolver != "" && !r.resolver(resolver) then None
      else Some(DnsCheck(w.recordType, vs, resolver))
  }

  /** dnsEditFromWire: a resolver equal to the stored one is not judged again. */
  function DnsEdit(r: Rules, w: DnsCheck, stored: Option<DnsCheck>): Option<DnsCheck> {
    if stored.None? || stored.value.resolver == "" || TrimSpace(w.resolver) != stored.value.resolver
    then DnsFromWire(r, w)
    else match DnsFromWire(r, w.(resolver := ""))
      case None => None
      case Some(d) => Some(d.(resolver := stored.value.resolver))
  }

  /** The first n values can be listed: each is valid once trimmed, and no two of them name the same record. */
  ghost predicate Listable(r: Rules, recordType: string, raw: seq<string>, n: nat)
    requires n <= |raw|
  {
    && (forall i :: 0 <= i < n ==> r.expectedValue(recordType, TrimSpace(raw[i])))
    && (forall i, j :: 0 <= i < j < n ==> r.dnsKey(recordType, TrimSpace(raw[i])) != r.dnsKey(recordType, TrimSpace(raw[j])))
  }

  /** vs is the first n values, trimmed, in order. */
  ghost predicate TrimmedOf(vs: seq<string>, raw: seq<string>, n: nat)
    requires n <= |raw|
  {
    |vs| == n && forall i :: 0 <= i < n ==> vs[i] == TrimSpace(raw[i])
  }

  lemma ListableStep(r: Rules, recordType: string, raw: seq<string>, n: nat, vs: seq<string>)
    requires n < |raw| && TrimmedOf(vs, raw, n)
    ensures Listable(r, recordType, raw, n + 1) <==>
      && Listable(r, recordType, raw, n) && r.expectedValue(recordType, TrimSpace(raw[n]))
      && r.dnsKey(recordType, TrimSpace(raw[n])) !in Keys(r, recordType, vs)
  {
    hide TrimSpace;
    var k := r.dnsKey(recordType, TrimSpace(raw[n]));
    if k in Keys(r, recordType, vs) {
      var v :| v in vs && r.dnsKey(recordType, v) == k;
      var i :| 0 <= i < n && vs[i] == v;
      assert r.dnsKey(recordType, TrimSpace(raw[i])) == r.dnsKey(recordType, TrimSpace(raw[n]));
    } else {
      forall i | 0 <= i < n ensures r.dnsKey(recordType, TrimSpace(raw[i])) != k { assert vs[i] in vs; }
    }
  }

  /** Exactly the values that can be listed are accepted, and they come back trimmed, in order. */
  lemma {:induction false} DnsValuesMeaning(r: Rules, recordType: string, raw: seq<string>, n: nat)
    requires n <= |raw|
    ensures DnsValues(r, recordType, raw, n).Some? <==> Listable(r, recordType, raw, n)
    ensures DnsValues(r, recordType, raw, n).Some? ==> TrimmedOf(DnsValues(r, recordType, raw, n).value, raw, n)
  {
    hide TrimSpace, Keys, Listable, TrimmedOf;
    NothingListed(r, recordType, raw);
    if n > 0 {
      DnsValuesMeaning(r, recordType, raw, n - 1);
      if Listable(r, recordType, raw, n - 1) {
        ListableStep(r, recordType, raw, n - 1, DnsValues(r, recordType, raw, n - 1).value);
        TrimmedStep(raw, n - 1, DnsValues(r, recordType, raw, n - 1).value);
      } else {
        FewerListable(r, recordType, raw, n - 1);
      }
    }
  }

  lemma TrimmedStep(raw: seq<string>, n: nat, vs: seq<string>)
    requires n < |raw| && TrimmedOf(vs, raw, n)
    ensures TrimmedOf(vs + [TrimSpace(raw[n])], raw, n + 1)
  {
    hide TrimSpace;
  }

  lemma NothingListed(r: Rules, recordType: string, raw: seq<string>)
    ensures Listable(r, recordType, raw, 0) && TrimmedOf([], raw, 0)
  {
  }

  lemma FewerListable(r: Rules, recordType: string, raw: seq<string>, n: nat)
    requires n < |raw| && !Listable(r, recordType, raw, n)
    ensures !Listable(r, recordType, raw, n + 1)
  {
    hide TrimSpace;
  }

  /** The loop of dnsCheckFromWire, with its map of keys already seen. */
  method DnsCheckFromWire(r: Rules, w: DnsCheck) returns (d: Option<DnsCheck>)
    ensures d == DnsFromWire(r, w)
    ensures d.Some? <==>
      && r.recordType(w.recordType) && |w.expected| <= 20 && Listable(r, w.recordType, w.expected, |w.expected|)
      && (TrimSpace(w.resolver) == "" || r.resolver(TrimSpace(w.resolver)))
    ensures d.Some? ==> d.value.recordType == w.recordType && d.value.resolver == TrimSpace(w.resolver)
    ensures d.Some? ==> TrimmedOf(d.value.expected, w.expected, |w.expected|)
  {
    hide TrimSpace, Keys, Listable, TrimmedOf;
    DnsValuesMeaning(r, w.recordType, w.expected, |w.expected|);
    if !r.recordType(w.recordType) { return None; }
    if |w.expected| > 20 { return None; }
    var out: seq<string> := [];
    var seen: set<string> := {};
    var i := 0;
    NoKeys(r, w.recordType);
    while i < |w.expected|
      invariant 0 <= i <= |w.expected|
      invariant DnsValues(r, w.recordType, w.expected, i) == Some(out)
      invariant seen == Keys(r, w.recordType, out)
    {
      var v := TrimSpace(w.expected[i]);
      var key := r.dnsKey(w.recordType, v);
      DnsStep(r, w.recordType, w.expected, i, out);
      if !r.expectedValue(w.recordType, v) || key in seen { return None; }
      seen := seen + {key};
      out := out + [v];
      i := i + 1;
    }
    var resolver := TrimSpace(w.resolver);
    if resolver != "" && !r.resolver(resolver) { return None; }
    return Some(DnsCheck(w.recordType, out, resolver));
  }

  lemma NoKeys(r: Rules, recordType: string)
    ensures Keys(r, recordType, []) == {}
  {
  }

  lemma {:induction false} RefusedPrefix(r: Rules, recordType: string, raw: seq<string>, i: nat, n: nat)
    requires i <= n <= |raw| && DnsValues(r, recordType, raw, i) == None
    ensures DnsValues(r, recordType, raw, n) == None
  {
    if i < n { RefusedPrefix(r, recordType, raw, i, n - 1); }
  }

  /** One turn of the loop: the next value is appended, or the whole list is refused. */
  lemma DnsStep(r: Rules, recordType: string, raw: seq<string>, i: nat, vs: seq<string>)
    requires i < |raw| && DnsValues(r, recordType, raw, i) == Some(vs)
    ensures var v := TrimSpace(raw[i]);
            if r.expectedValue(recordType, v) && r.dnsKey(recordType, v) !in Keys(r, recordType, vs)
            then DnsValues(r, recordType, raw, i + 1) == Some(vs + [v])
                 && Keys(r, recordType, vs + [v]) == Keys(r, recordType, vs) + {r.dnsKey(recordType, v)}
            else DnsValues(r, recordType, raw, |raw|) == None
  {
    var v := TrimSpace(raw[i]);
    KeysGrow(r, recordType, vs, v);
    if !(r.expectedValue(recordType, v) && r.dnsKey(recordType, v) !in Keys(r, recordType, vs)) {
      RefusedPrefix(r, recordType, raw, i + 1, |raw|);
    }
  }

  lemma KeysGrow(r: Rules, recordType: string, vs: seq<string>, v: string)
    ensures Keys(r, recordType, vs + [v]) == Keys(r, recordType, vs) + {r.dnsKey(recordType, v)}
  {
    var all := vs + [v];
    forall k | k in Keys(r, recordType, vs) + {r.dnsKey(recordType, v)} ensures k in Keys(r, recordType, all) {
      if k == r.dnsKey(recordType, v) {
        assert all[|vs|] == v;
      } else {
        var u :| u in vs && r.dnsKey(recordType, u) == k;
        assert u in all;
      }
    }
  }

  // ------------------------------------------------------------------------ the store

  /** store.ApplyMonitorDefaults. */
  function WithDefaults(m: Monitor): Monitor {
    m.(intervalS := if m.intervalS != 0 then m.intervalS else if m.typ == Domain then DefaultDomainIntervalS else 60,
       timeoutS := if m.timeoutS != 0 then m.timeoutS else 10,
       recovery := if m.recovery != 0 then m.recovery else 2,
       verb := if m.verb != Unset then m.verb else GET,
       expectedStatus := if m.expectedStatus != "" then m.expectedStatus else DefaultStatus,
       keywordMode := if m.keywordMode != UnsetMode then m.keywordMode else AbsentOk,
       sslWarnDays := if m.sslWarnDays != 0 then m.sslWarnDays else DefaultSSLWarnDays)
  }

  /** The row a create or an update writes, as the next read returns it: defaults filled in, the
      columns another type does not have empty, and no channel ids, which live in their own table. */
  function Stored(m: Monitor): Monitor {
    WithDefaults(m).(
      domainWarnDays := if m.typ == Domain then m.domainWarnDays else 0,
      pushGraceS := if m.typ == Push then m.pushGraceS else 0,
      pushTimezone := if m.typ == Push then m.pushTimezone else "",
      pin := if m.typ == Http || m.typ == Ssl then m.pin else "",
      pinAt := if (m.typ == Http || m.typ == Ssl) && m.pin != "" then m.pinAt else 0,
      channelIds := None)
  }

  /** A second write of the same monitor changes nothing. */
  lemma StoredIdempotent(m: Monitor)
    ensures Stored(Stored(m)) == Stored(m)
  {
  }
}
