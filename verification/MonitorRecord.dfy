/** applyMonitorPatch as the program runs it: one field after another overwritten in place, each rule
    judged between the writes, the first refusal ending the call. Apply is proved to be Patched. */
module MonitorRecord {
  import opened Prelude
  import opened MonitorRules
  import opened MonitorPatch

  /** The monitor a request is merged into. */
  class Record {
    var m: Monitor

    constructor (m: Monitor)
      ensures this.m == m
    {
      this.m := m;
    }

    method ApplyIdentity(p: Patch) returns (out: Problem)
      modifies this
      ensures out == IdentityProblem(old(m), p)
      ensures out == Fine ==>
        m == old(m).(name := p.name.GetOr(old(m).name), typ := p.typ.GetOr(old(m).typ), target := p.target.GetOr(old(m).target))
    {
      if p.name.Some? {
        if TrimSpace(p.name.value) == "" { return Bad(FName); }
        if p.name.value != m.name && !NameOk(p.name.value) { return Bad(FName); }
        m := m.(name := p.name.value);
      }
      if p.typ.Some? {
        if (p.typ.value == Push) != (m.typ == Push) { return Bad(FType); }
        if !KnownType(p.typ.value) { return Bad(FType); }
        m := m.(typ := p.typ.value);
      }
      if p.target.Some? {
        if TrimSpace(p.target.value) == "" { return Bad(FTarget); }
        if p.target.value != m.target && |p.target.value| > MaxTextLen { return Bad(FTarget); }
        m := m.(target := p.target.value);
      }
      return Fine;
    }

    method ApplyTiming(p: Patch) returns (out: Problem)
      modifies this
      ensures var n := old(m).(intervalS := p.intervalS.GetOr(old(m).intervalS), timeoutS := p.timeoutS.GetOr(old(m).timeoutS),
                               retries := p.retries.GetOr(old(m).retries), recovery := p.recovery.GetOr(old(m).recovery));
              out == TimingProblem(n, p) && (out == Fine ==> m == n)
    {
      if p.intervalS.Some? {
        if !IntervalInRange(p.intervalS.value) { return Bad(FInterval); }
        m := m.(intervalS := p.intervalS.value);
      }
      if p.timeoutS.Some? {
        if !TimeoutInRange(p.timeoutS.value) { return Bad(FTimeout); }
        m := m.(timeoutS := p.timeoutS.value);
      }
      if p.timeoutS.Some? {
        if !TimeoutFits(m.typ, m.intervalS, m.timeoutS) { return Bad(FTimeout); }
      } else if p.intervalS.Some? {
        if !TimeoutFits(m.typ, m.intervalS, m.timeoutS) { return Bad(FInterval); }
      }
      if p.retries.Some? {
        if !RetriesInRange(p.retries.value) { return Bad(FRetries); }
        m := m.(retries := p.retries.value);
      }
      if p.recovery.Some? {
        if !RecoveryInRange(p.recovery.value) { return Bad(FRecovery); }
        m := m.(recovery := p.recovery.value);
      }
      return Fine;
    }

    method ApplyStatus(r: Rules, p: Patch) returns (out: Problem)
      modifies this
      ensures out == StatusProblem(r, old(m), p)
      ensures out == Fine ==>
        m == old(m).(verb := if p.verb.Some? then r.verb(p.verb.value).GetOr(old(m).verb) else old(m).verb,
                     expectedStatus := p.expectedStatus.GetOr(old(m).expectedStatus))
    {
      if p.verb.Some? {
        if r.verb(p.verb.value).None? { return Bad(FMethod); }
        m := m.(verb := r.verb(p.verb.value).value);
      }
      if p.expectedStatus.Some? {
        if p.expectedStatus.value != m.expectedStatus && |p.expectedStatus.value| > MaxTextLen { return Bad(FExpectedStatus); }
        if !r.statusSpec(p.expectedStatus.value) { return Bad(FExpectedStatus); }
        m := m.(expectedStatus := p.expectedStatus.value);
      }
      return Fine;
    }

    method ApplyKeyword(p: Patch) returns (out: Problem)
      modifies this
      ensures out == KeywordProblem(old(m), p)
      ensures out == Fine ==>
        m == old(m).(keyword := p.keyword.GetOr(old(m).keyword), keywordMode := p.keywordMode.GetOr(old(m).keywordMode),
                     followRedirects := p.followRedirects.GetOr(old(m).followRedirects))
    {
      if p.keyword.Some? {
        if p.keyword.value != m.keyword && |p.keyword.value| > MaxTextLen { return Bad(FKeyword); }
        m := m.(keyword := p.keyword.value);
      }
      if p.keywordMode.Some? {
        if p.keywordMode.value.OtherMode? { return Bad(FKeywordMode); }
        m := m.(keywordMode := p.keywordMode.value);
      }
      if p.followRedirects.Some? { m := m.(followRedirects := p.followRedirects.value); }
      return Fine;
    }

    method ApplyPayload(r: Rules, p: Patch) returns (out: Problem)
      modifies this
      ensures out == PayloadProblem(r, old(m), p)
      ensures out == Fine ==> m == old(m).(headers := p.headers.GetOr(old(m).headers), body := p.body.GetOr(old(m).body))
    {
      if p.headers.Some? {
        if p.headers.value != m.headers && !r.headersFit(p.headers.value) { return Bad(FHeaders); }
        if !Sendable(r, p.headers.value) { return Bad(FHeaders); }
        m := m.(headers := p.headers.value);
      }
      if p.body.Some? {
        if p.body.value != m.body && |p.body.value| > MaxBodyLen { return Bad(FBody); }
        m := m.(body := p.body.value);
      }
      return Fine;
    }

    method ApplyWarnings(p: Patch) returns (out: Problem)
      modifies this
      ensures out == WarningProblem(p)
      ensures out == Fine ==>
        m == old(m).(sslWarnDays := p.sslWarnDays.GetOr(old(m).sslWarnDays), repeatAfterS := p.repeatAfterS.GetOr(old(m).repeatAfterS),
                     enabled := p.enabled.GetOr(old(m).enabled), captureResponse := p.captureResponse.GetOr(old(m).captureResponse))
    {
      if p.sslWarnDays.Some? {
        if !SSLWarnInRange(p.sslWarnDays.value) { return Bad(FSSLWarnDays); }
        m := m.(sslWarnDays := p.sslWarnDays.value);
      }
      if p.repeatAfterS.Some? {
        if !RepeatInRange(p.repeatAfterS.value) { return Bad(FRepeatAfter); }
        m := m.(repeatAfterS := p.repeatAfterS.value);
      }
      if p.enabled.Some? { m := m.(enabled := p.enabled.value); }
      if p.captureResponse.Some? { m := m.(captureResponse := p.captureResponse.value); }
      return Fine;
    }

    method ApplyTags(r: Rules, p: Patch) returns (out: Problem)
      modifies this
      ensures out == TagsProblem(r, old(m), p)
      ensures out == Fine ==>
        m == old(m).(minTLS := if p.minTLS.Some? then ParseTLS(p.minTLS.value).GetOr(0) else old(m).minTLS,
                     channelIds := if p.channelIds.Some? then p.channelIds else old(m).channelIds,
                     tags := if p.tags.Some? then r.tags(p.tags.value, old(m).tags).GetOr(old(m).tags) else old(m).tags)
    {
      if p.minTLS.Some? {
        if p.minTLS.value == "" {
          m := m.(minTLS := 0);
        } else {
          if ParseTLS(p.minTLS.value).None? { return Bad(FMinTLS); }
          m := m.(minTLS := ParseTLS(p.minTLS.value).value);
        }
      }
      if p.channelIds.Some? { m := m.(channelIds := p.channelIds); }
      if p.tags.Some? {
        var normal := r.tags(p.tags.value, m.tags);
        if normal.None? { return Bad(FTags); }
        m := m.(tags := normal.value);
      }
      return Fine;
    }

    /** The assertion, then the two rules that join it to the rest of the monitor. */
    method ApplyAssertion(r: Rules, p: Patch) returns (out: Problem)
      modifies this
      ensures var n := old(m).(assertion := MergedAssertion(r, old(m), p));
              out == AssertionProblem(r, old(m), p, n) && (out == Fine ==> m == n)
    {
      if p.assertion.Malformed? { return Bad(FAssertion); }
      if p.assertion.Replace? {
        if !AssertionFits(p.assertion.wire, m.assertion) { return Bad(FAssertion); }
        if !r.assertion(p.assertion.wire) { return Bad(FAssertion); }
        m := m.(assertion := Some(SavedAssertion(r, p.assertion.wire)));
      } else if p.assertion.Clear? {
        m := m.(assertion := None);
      }
      if m.assertion.Some? && (!p.assertion.Leave? || p.typ.Some?) && m.typ != Http { return Bad(FAssertion); }
      if p.verb.Some? || p.keyword.Some? || p.keywordMode.Some? || !p.assertion.Leave? || p.typ.Some? {
        if !HeadBodyOk(m.typ, m.verb, m.keyword, m.keywordMode, m.assertion.Some?) { return Bad(FMethod); }
      }
      return Fine;
    }

    method ApplyDns(r: Rules, p: Patch) returns (out: Problem)
      requires p.typ.GetOr(m.typ) == m.typ
      modifies this
      ensures var n := old(m).(dns := MergedDns(r, old(m), p));
              out == DnsProblem(r, old(m), p, n) && (out == Fine ==> m == n)
    {
      if p.dns.Some? {
        var d := DnsEditFromWire(r, p.dns.value, m.dns);
        if d.None? { return Bad(FDns); }
        m := m.(dns := d);
      }
      if p.typ.Some? && m.typ != Dns && p.dns.None? { m := m.(dns := None); }
      if p.typ.Some? || p.dns.Some? {
        if !DnsTypeOk(m.typ, m.dns) { return Bad(FDns); }
      }
      return Fine;
    }

    /** applyDomainPatch. */
    method ApplyDomain(p: Patch, wasType: MonitorType) returns (out: Problem)
      modifies this
      ensures out == DomainProblem(p, old(m))
      ensures out == Fine ==> m == old(m).(domainWarnDays :=
        if m.typ != Domain then 0
        else p.domainWarnDays.GetOr(if wasType != Domain then DefaultDomainWarnDays else old(m).domainWarnDays))
    {
      if p.domainWarnDays.Some? && !DomainWarnInRange(p.domainWarnDays.value) { return Bad(FDomainWarnDays); }
      if m.typ != Domain {
        if p.domainWarnDays.Some? { return Bad(FDomainWarnDays); }
        m := m.(domainWarnDays := 0);
        return Fine;
      } else if p.domainWarnDays.Some? {
        m := m.(domainWarnDays := p.domainWarnDays.value);
      } else if wasType != Domain {
        m := m.(domainWarnDays := DefaultDomainWarnDays);
      }
      if p.intervalS.Some? || p.typ.Some? { out := DomainTypeProblem(m.typ, m.intervalS, None); return; }
      return Fine;
    }

    /** dropUnreadSettings: a type that does not read a setting resets it unless the request sends it. */
    method DropUnread(p: Patch)
      modifies this
      ensures m == DroppedTLS(DroppedHTTP(old(m), p), p)
    {
      if !ReadsHTTP(m.typ) { DropUnreadHTTP(p); }
      if !ReadsTLS(m.typ) {
        if p.sslWarnDays.None? { m := m.(sslWarnDays := DefaultSSLWarnDays); }
        if p.minTLS.None? { m := m.(minTLS := 0); }
      }
    }

    method DropUnreadHTTP(p: Patch)
      requires !ReadsHTTP(m.typ)
      modifies this
      ensures m == DroppedHTTP(old(m), p)
    {
      DropUnreadRequest(p);
      if p.headers.None? { m := m.(headers := map[]); }
      if p.body.None? { m := m.(body := ""); }
    }

    method DropUnreadRequest(p: Patch)
      modifies this
      ensures m == DroppedRequest(old(m), p)
    {
      if p.verb.None? { m := m.(verb := GET); }
      if p.expectedStatus.None? { m := m.(expectedStatus := DefaultStatus); }
      if p.keyword.None? && p.keywordMode.None? { m := m.(keyword := "", keywordMode := AbsentOk); }
    }

    method ApplyPush(r: Rules, p: Patch) returns (out: Problem)
      modifies this
      ensures var n := old(m).(
                pushIntervalS := p.pushIntervalS.GetOr(old(m).pushIntervalS), pushGraceS := p.pushGraceS.GetOr(old(m).pushGraceS),
                pushTimezone := if p.pushTimezone.Some? then TrimSpace(p.pushTimezone.value) else old(m).pushTimezone);
              out == PushProblem(r, p, n) && (out == Fine ==> m == n)
    {
      if p.pushIntervalS.Some? || p.pushGraceS.Some? {
        if m.typ != Push { return Bad(FPushInterval); }
        m := m.(pushIntervalS := p.pushIntervalS.GetOr(m.pushIntervalS), pushGraceS := p.pushGraceS.GetOr(m.pushGraceS));
        out := PushRangeProblem(m.pushIntervalS, m.pushGraceS);
        if out != Fine { return; }
      }
      if p.pushTimezone.Some? || p.pushIntervalS.Some? {
        if p.pushTimezone.Some? { m := m.(pushTimezone := TrimSpace(p.pushTimezone.value)); }
        out := PushTimezoneProblem(r, m.typ, m.pushIntervalS, m.pushTimezone);
        return;
      }
      return Fine;
    }

    /** The target the monitor ends up with, and last the pin (applyTrustedCert). */
    method ApplyTargetAndPin(r: Rules, p: Patch, before: Monitor, now: int) returns (out: Problem)
      requires m.pin == before.pin && m.pinAt == before.pinAt && (m.pin == "" ==> m.pinAt == 0)
      modifies this
      ensures out == TargetProblem(r, before, p, old(m))
      ensures out == Fine ==> var pin := MergedPin(r, before, p, m.typ, m.target);
        m == old(m).(pin := pin, pinAt := if pin == "" then 0 else if pin == before.pin then before.pinAt else now)
    {
      hide TrustedCert, PinCarrier;
      if (m.target != before.target || m.typ != before.typ) && !r.target(m.typ, m.target) { return Bad(FTarget); }
      if p.trustedCert.Some? {
        var pin := TrustedCert(r, p.trustedCert, m.typ, m.target);
        if pin.None? { return Bad(FTrustedCert); }
        if pin.value != m.pin { m := m.(pin := pin.value, pinAt := if pin.value == "" then 0 else now); }
      }
      if !PinCarrier(r, m.typ, m.target) { m := m.(pin := "", pinAt := 0); }
      return Fine;
    }

    /** The fields a monitor is checked with, up to its assertion. */
    method ApplyFields(r: Rules, p: Patch) returns (out: Problem)
      modifies this
      ensures out == Then(RequestProblem(r, old(m), p), AlertProblem(r, old(m), p))
      ensures out == Fine ==> m == WithFields(r, old(m), p)
    {
      out := ApplyStatus(r, p);
      if out != Fine { return; }
      out := ApplyKeyword(p);
      if out != Fine { return; }
      out := ApplyPayload(r, p);
      if out != Fine { return; }
      out := ApplyWarnings(p);
      if out != Fine { return; }
      out := ApplyTags(r, p);
    }

    /** Assertion, dns and domain settings, on the type the request settled. */
    method ApplyKind(r: Rules, p: Patch, before: Monitor) returns (out: Problem)
      requires p.typ.GetOr(m.typ) == m.typ && m.assertion == before.assertion && m.dns == before.dns
      requires m.domainWarnDays == before.domainWarnDays
      modifies this
      ensures var n := WithKind(r, old(m), p, before);
              && out == Then(AssertionProblem(r, before, p, n), Then(DnsProblem(r, before, p, n), DomainProblem(p, n)))
              && (out == Fine ==> m == n)
    {
      ghost var n := WithKind(r, m, p, before);
      out := ApplyAssertion(r, p);
      assert out == AssertionProblem(r, before, p, n);
      if out != Fine { return; }
      out := ApplyDns(r, p);
      assert out == DnsProblem(r, before, p, n);
      if out != Fine { return; }
      out := ApplyDomain(p, before.typ);
    }

    /** applyUnreadSettings. */
    method ApplyUnread(p: Patch, before: Monitor) returns (out: Problem)
      modifies this
      ensures m == WithoutUnread(old(m), p, before) && out == FirstIdle(m, JudgedSettings(before, p, m), 0)
    {
      if m.typ != before.typ { DropUnread(p); }
      out := UnreadSettingsProblem(m, JudgedSettings(before, p, m));
    }

    /** applyMonitorPatch: the record ends as Patched says, or the call ends with the field it says. */
    method Apply(r: Rules, p: Patch, now: int) returns (out: Problem)
      requires m.pin == "" ==> m.pinAt == 0
      modifies this
      ensures out == Fine ==> Patched(r, old(m), p, now) == Merged(m)
      ensures out != Fine ==> Patched(r, old(m), p, now) == Refused(out.field)
    {
      var before := m;
      ghost var n := Merge(r, m, p, now);
      out := ApplyIdentity(p);
      if out != Fine { return; }
      out := ApplyTiming(p);
      TimingJudgesTheMerge(r, before, p, now, n);
      if out != Fine { return; }
      FieldsAreMerged(r, before, p, now, n);
      out := ApplyFields(r, p);
      if out != Fine { return; }
      KindIsMerged(r, before, p, now, n);
      out := ApplyKind(r, p, before);
      if out != Fine { return; }
      UnreadIsMerged(r, before, p, now, n);
      UnreadJudgesTheMerge(n, before, p);
      out := ApplyUnread(p, before);
      if out != Fine { return; }
      PushIsMerged(r, before, p, now, n);
      out := ApplyPush(r, p);
      if out != Fine { return; }
      out := ApplyTargetAndPin(r, p, before, now);
    }
  }

  // ------------------------------------------------------ the record between the stages

  function WithIdentity(m: Monitor, p: Patch): Monitor {
    m.(name := p.name.GetOr(m.name), typ := p.typ.GetOr(m.typ), target := p.target.GetOr(m.target))
  }

  function WithTiming(m: Monitor, p: Patch): Monitor {
    m.(intervalS := p.intervalS.GetOr(m.intervalS), timeoutS := p.timeoutS.GetOr(m.timeoutS),
       retries := p.retries.GetOr(m.retries), recovery := p.recovery.GetOr(m.recovery))
  }

  function WithKind(r: Rules, m: Monitor, p: Patch, before: Monitor): Monitor {
    m.(assertion := MergedAssertion(r, before, p), dns := MergedDns(r, before, p),
       domainWarnDays := if m.typ != Domain then 0
                         else p.domainWarnDays.GetOr(if before.typ != Domain then DefaultDomainWarnDays else m.domainWarnDays))
  }

  function WithoutUnread(m: Monitor, p: Patch, before: Monitor): Monitor {
    if m.typ == before.typ then m else DroppedTLS(DroppedHTTP(m, p), p)
  }

  function WithPush(m: Monitor, p: Patch): Monitor {
    m.(pushIntervalS := p.pushIntervalS.GetOr(m.pushIntervalS), pushGraceS := p.pushGraceS.GetOr(m.pushGraceS),
       pushTimezone := if p.pushTimezone.Some? then TrimSpace(p.pushTimezone.value) else m.pushTimezone)
  }

  // Seen backwards: n is the finished merge, and each of these undoes what a stage has yet to do.

  function Unpinned(n: Monitor, m: Monitor): Monitor { n.(pin := m.pin, pinAt := m.pinAt) }

  function Unpushed(n: Monitor, m: Monitor): Monitor {
    n.(pin := m.pin, pinAt := m.pinAt, pushIntervalS := m.pushIntervalS, pushGraceS := m.pushGraceS, pushTimezone := m.pushTimezone)
  }

  function Undropped(r: Rules, n: Monitor, m: Monitor, p: Patch): Monitor {
    n.(pin := m.pin, pinAt := m.pinAt, pushIntervalS := m.pushIntervalS, pushGraceS := m.pushGraceS, pushTimezone := m.pushTimezone,
       verb := if p.verb.Some? then r.verb(p.verb.value).GetOr(m.verb) else m.verb,
       expectedStatus := p.expectedStatus.GetOr(m.expectedStatus), keyword := p.keyword.GetOr(m.keyword),
       keywordMode := p.keywordMode.GetOr(m.keywordMode), headers := p.headers.GetOr(m.headers), body := p.body.GetOr(m.body),
       sslWarnDays := p.sslWarnDays.GetOr(m.sslWarnDays),
       minTLS := if p.minTLS.Some? then ParseTLS(p.minTLS.value).GetOr(0) else m.minTLS)
  }

  function Fielded(r: Rules, n: Monitor, m: Monitor, p: Patch): Monitor {
    Undropped(r, n, m, p).(assertion := m.assertion, dns := m.dns, domainWarnDays := m.domainWarnDays)
  }

  lemma TimingJudgesTheMerge(r: Rules, m: Monitor, p: Patch, now: int, n: Monitor)
    requires n == Merge(r, m, p, now)
    ensures TimingProblem(WithTiming(WithIdentity(m, p), p), p) == TimingProblem(n, p)
  {
  }

  lemma FieldsAreMerged(r: Rules, m: Monitor, p: Patch, now: int, n: Monitor)
    requires n == Merge(r, m, p, now)
    ensures var start := WithTiming(WithIdentity(m, p), p);
            && WithFields(r, start, p) == Fielded(r, n, m, p)
            && RequestProblem(r, start, p) == RequestProblem(r, m, p) && AlertProblem(r, start, p) == AlertProblem(r, m, p)
  {
  }

  lemma KindIsMerged(r: Rules, m: Monitor, p: Patch, now: int, n: Monitor)
    requires n == Merge(r, m, p, now)
    ensures var kind := WithKind(r, Fielded(r, n, m, p), p, m);
            && kind == Undropped(r, n, m, p)
            && AssertionProblem(r, m, p, kind) == AssertionProblem(r, m, p, n)
            && DnsProblem(r, m, p, kind) == DnsProblem(r, m, p, n) && DomainProblem(p, kind) == DomainProblem(p, n)
  {
  }

  lemma HTTPIsDropped(r: Rules, m: Monitor, p: Patch, now: int, n: Monitor)
    requires n == Merge(r, m, p, now) && n.typ != m.typ
    ensures DroppedHTTP(Undropped(r, n, m, p), p) == Unpushed(n, m).(
      sslWarnDays := p.sslWarnDays.GetOr(m.sslWarnDays),
      minTLS := if p.minTLS.Some? then ParseTLS(p.minTLS.value).GetOr(0) else m.minTLS)
  {
  }

  lemma UnreadIsMerged(r: Rules, m: Monitor, p: Patch, now: int, n: Monitor)
    requires n == Merge(r, m, p, now)
    ensures WithoutUnread(Undropped(r, n, m, p), p, m) == Unpushed(n, m)
  {
    if n.typ != m.typ { HTTPIsDropped(r, m, p, now, n); }
  }

  lemma UnreadJudgesTheMerge(n: Monitor, m: Monitor, p: Patch)
    ensures var read := Unpushed(n, m);
            FirstIdle(read, JudgedSettings(m, p, read), 0) == FirstIdle(n, JudgedSettings(m, p, n), 0)
  {
    var read := Unpushed(n, m);
    FirstIdleReads(read, n, JudgedSettings(m, p, read));
    assert JudgedSettings(m, p, read) == JudgedSettings(m, p, n);
  }

  lemma PushIsMerged(r: Rules, m: Monitor, p: Patch, now: int, n: Monitor)
    requires n == Merge(r, m, p, now)
    ensures WithPush(Unpushed(n, m), p) == Unpinned(n, m)
    ensures PushProblem(r, p, Unpinned(n, m)) == PushProblem(r, p, n)
    ensures TargetProblem(r, m, p, Unpinned(n, m)) == TargetProblem(r, m, p, n)
  {
  }

  // The parts of RequestProblem and AlertProblem the methods above answer for.

  function StatusProblem(r: Rules, m: Monitor, p: Patch): Problem {
    if p.verb.Some? && r.verb(p.verb.value).None? then Bad(FMethod)
    else if !TextFits(p.expectedStatus, m.expectedStatus, MaxTextLen) then Bad(FExpectedStatus)
    else if p.expectedStatus.Some? && !r.statusSpec(p.expectedStatus.value) then Bad(FExpectedStatus)
    else Fine
  }

  function KeywordProblem(m: Monitor, p: Patch): Problem {
    if !TextFits(p.keyword, m.keyword, MaxTextLen) then Bad(FKeyword)
    else if p.keywordMode.Some? && p.keywordMode.value.OtherMode? then Bad(FKeywordMode)
    else Fine
  }

  function PayloadProblem(r: Rules, m: Monitor, p: Patch): Problem {
    if p.headers.Some? && p.headers.value != m.headers && !r.headersFit(p.headers.value) then Bad(FHeaders)
    else if p.headers.Some? && !Sendable(r, p.headers.value) then Bad(FHeaders)
    else if !TextFits(p.body, m.body, MaxBodyLen) then Bad(FBody)
    else Fine
  }

  function WarningProblem(p: Patch): Problem {
    if p.sslWarnDays.Some? && !SSLWarnInRange(p.sslWarnDays.value) then Bad(FSSLWarnDays)
    else if p.repeatAfterS.Some? && !RepeatInRange(p.repeatAfterS.value) then Bad(FRepeatAfter)
    else Fine
  }

  function TagsProblem(r: Rules, m: Monitor, p: Patch): Problem {
    if p.minTLS.Some? && p.minTLS.value != "" && ParseTLS(p.minTLS.value).None? then Bad(FMinTLS)
    else if p.tags.Some? && r.tags(p.tags.value, m.tags).None? then Bad(FTags)
    else Fine
  }

  function WithFields(r: Rules, m: Monitor, p: Patch): Monitor {
    m.(verb := if p.verb.Some? then r.verb(p.verb.value).GetOr(m.verb) else m.verb,
       expectedStatus := p.expectedStatus.GetOr(m.expectedStatus), keyword := p.keyword.GetOr(m.keyword),
       keywordMode := p.keywordMode.GetOr(m.keywordMode), followRedirects := p.followRedirects.GetOr(m.followRedirects),
       headers := p.headers.GetOr(m.headers), body := p.body.GetOr(m.body),
       sslWarnDays := p.sslWarnDays.GetOr(m.sslWarnDays), repeatAfterS := p.repeatAfterS.GetOr(m.repeatAfterS),
       enabled := p.enabled.GetOr(m.enabled), captureResponse := p.captureResponse.GetOr(m.captureResponse),
       minTLS := if p.minTLS.Some? then ParseTLS(p.minTLS.value).GetOr(0) else m.minTLS,
       channelIds := if p.channelIds.Some? then p.channelIds else m.channelIds,
       tags := if p.tags.Some? then r.tags(p.tags.value, m.tags).GetOr(m.tags) else m.tags)
  }

  function DroppedRequest(m: Monitor, p: Patch): Monitor {
    var noKeyword := p.keyword.None? && p.keywordMode.None?;
    m.(verb := if p.verb.None? then GET else m.verb,
       expectedStatus := if p.expectedStatus.None? then DefaultStatus else m.expectedStatus,
       keyword := if noKeyword then "" else m.keyword, keywordMode := if noKeyword then AbsentOk else m.keywordMode)
  }

  function DroppedHTTP(m: Monitor, p: Patch): Monitor {
    if ReadsHTTP(m.typ) then m else
    DroppedRequest(m, p).(headers := if p.headers.None? then map[] else m.headers, body := if p.body.None? then "" else m.body)
  }

  function DroppedTLS(m: Monitor, p: Patch): Monitor {
    if ReadsTLS(m.typ) then m else
    m.(sslWarnDays := if p.sslWarnDays.None? then DefaultSSLWarnDays else m.sslWarnDays,
       minTLS := if p.minTLS.None? then 0 else m.minTLS)
  }

  /** dnsEditFromWire. */
  method DnsEditFromWire(r: Rules, w: DnsCheck, stored: Option<DnsCheck>) returns (d: Option<DnsCheck>)
    ensures d == DnsEdit(r, w, stored)
  {
    if stored.None? || stored.value.resolver == "" || TrimSpace(w.resolver) != stored.value.resolver {
      d := DnsCheckFromWire(r, w);
      return;
    }
    d := DnsCheckFromWire(r, w.(resolver := ""));
    if d.Some? { d := Some(d.value.(resolver := stored.value.resolver)); }
  }
}
