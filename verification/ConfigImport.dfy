/** applyImport (internal/api/config_import.go): a plan written one store call at a time. It ends in the
    file's target, or stops where importing the file again completes it. */
module ConfigImport {
  import opened Prelude
  import opened KeyedMerge
  import opened ConfigModel
  import opened ConfigRules
  import opened ConfigSpec
  import S = ConfigStore
  import opened ConfigCalls
  import opened ConfigSteps
  import C = ConfigApplyChannels
  import M = ConfigApplyMonitors
  import R = ConfigApplyRules
  import P = ConfigApplyPages

  /** plan is what planning doc on the instance db decides. */
  ghost predicate PlanFits(p: Platform, db: S.Db, doc: Document, plan: Plan) {
    var v := S.Seen(db);
    var channels, monitors := v.channels.Keys + ChannelKeys(doc), v.monitors.Keys + MonitorKeys(doc);
    && C.ChannelsPlanned(p, v, db.channelKeys.idOf, doc.channels, plan.channels)
    && M.MonitorsPlanned(p, v.monitors, db.monitorKeys.idOf, doc.monitors, plan.monitors)
    && R.RulesPlanned(p, v.rules, db.rules, doc.rules, plan.rules) && R.RuleRefsIn(plan.rules, channels, monitors)
    && R.WindowsPlanned(p, NewWindows(p, v.windows, doc.windows), plan.windows) && R.WindowRefsIn(plan.windows, monitors)
    && P.PagesPlanned(p, v.pages, db.pages, doc.pages, plan.pages) && P.PageRefsIn(plan.pages, monitors)
  }

  /** The keys the file may refer to are the instance's once the section they belong to is written. */
  lemma ChannelsKnown(p: Platform, v: View, doc: Document, done: View)
    requires Accepts(p, v, doc) && done == C.ChannelsDone(p, v, doc.channels, |doc.channels|)
    ensures v.channels.Keys + ChannelKeys(doc) == done.channels.Keys
  {
    hide ConfigChannels.NextChannelView;
    AppliedKeys(ChannelRule(p), ChannelKey(), v.channels, doc.channels, |doc.channels|, ChannelKeys(doc));
    forall k | k in ChannelKeys(doc) ensures k in done.channels {
      var x :| x in doc.channels && x.key == k;
      var i :| 0 <= i < |doc.channels| && doc.channels[i] == x;
      assert ChannelKey()(doc.channels[i]) in done.channels;
    }
  }

  lemma MonitorsKnown(p: Platform, v: View, doc: Document, done: View)
    requires Accepts(p, v, doc) && done.monitors == Applied(MonitorRule(p), MonitorKey(), v.monitors, doc.monitors, |doc.monitors|)
    ensures v.monitors.Keys + MonitorKeys(doc) == done.monitors.Keys
  {
    hide ConfigMonitors.NextMonitorView;
    AppliedKeys(MonitorRule(p), MonitorKey(), v.monitors, doc.monitors, |doc.monitors|, MonitorKeys(doc));
    forall k | k in MonitorKeys(doc) ensures k in done.monitors {
      var x :| x in doc.monitors && x.key == k;
      var i :| 0 <= i < |doc.monitors| && doc.monitors[i] == x;
      assert MonitorKey()(doc.monitors[i]) in done.monitors;
    }
  }

  /** A section as it was is one its writing can stop in. */
  lemma NotBegun<K(!new), E, T(!new)>(rule: Rule<T, E>, half: Partial<T>, keyOf: E -> K, m: map<K, T>, es: seq<E>)
    requires Distinct(keyOf, es) && Accepted(rule, keyOf, m, es)
    requires forall s, t :: half(s, Some(t), t) && half(s, s, t)
    ensures Between(rule, half, keyOf, m, m, es)
  {
    FinishedIsBetween(rule, half, keyOf, m, es, 0);
  }

  lemma NoMonitorYet(p: Platform, v: View, doc: Document)
    requires Parsed(p, doc) && Accepts(p, v, doc)
    ensures Between(MonitorRule(p), MonitorParts(), MonitorKey(), v.monitors, v.monitors, doc.monitors)
  {
    AcceptedParts(p, v, doc);
    hide Between, Accepted, Distinct, Parsed, Accepts;
    NotBegun(MonitorRule(p), MonitorParts(), MonitorKey(), v.monitors, doc.monitors);
  }

  lemma NoRuleYet(p: Platform, v: View, doc: Document)
    requires Parsed(p, doc) && Accepts(p, v, doc)
    ensures Between(RuleRule(p), RuleParts(), RuleKey(p), v.rules, v.rules, doc.rules)
  {
    AcceptedParts(p, v, doc);
    hide Between, Accepted, Distinct, Parsed, Accepts;
    NotBegun(RuleRule(p), RuleParts(), RuleKey(p), v.rules, doc.rules);
  }

  lemma NoPageYet(p: Platform, v: View, doc: Document)
    requires Parsed(p, doc) && Accepts(p, v, doc)
    ensures Between(PageRule(p), PageParts(), PageKey(p), v.pages, v.pages, doc.pages)
  {
    AcceptedParts(p, v, doc);
    hide Between, Accepted, Distinct, Parsed, Accepts;
    NotBegun(PageRule(p), PageParts(), PageKey(p), v.pages, doc.pages);
  }

  /** Stopping inside the channels: everything after them is as it was. */
  lemma StoppedInChannels(p: Platform, v: View, w: View, doc: Document)
    requires Parsed(p, doc) && Accepts(p, v, doc) && C.ChannelsStopped(p, v, w, doc.channels)
    ensures Interrupted(p, v, w, doc)
  {
    hide Parsed, Accepts, Applied, Between, WindowsBetween, NewWindows, DefaultAfter;
    NoMonitorYet(p, v, doc);
    NoRuleYet(p, v, doc);
    NoPageYet(p, v, doc);
    NoWindowYet(p, v, doc);
  }

  lemma NoWindowYet(p: Platform, v: View, doc: Document)
    ensures WindowsBetween(p, v.windows, v.windows, doc.windows)
  {
    assert v.windows + NewWindows(p, v.windows, doc.windows)[..0] == v.windows;
  }

  // The view after each part of the import.

  function AfterChannels(p: Platform, v: View, doc: Document): View { C.ChannelsDone(p, v, doc.channels, |doc.channels|) }
  function AfterMonitors(p: Platform, v: View, doc: Document): View {
    M.MonitorsDone(p, AfterChannels(p, v, doc), doc.monitors, |doc.monitors|)
  }
  function AfterRules(p: Platform, v: View, doc: Document): View {
    R.RulesDone(p, AfterMonitors(p, v, doc), doc.rules, |doc.rules|)
  }
  function AfterWindows(p: Platform, v: View, doc: Document): View {
    AfterRules(p, v, doc).(windows := v.windows + NewWindows(p, v.windows, doc.windows))
  }
  function AfterPages(p: Platform, v: View, doc: Document): View {
    P.PagesDone(p, AfterWindows(p, v, doc), doc.pages, |doc.pages|)
  }

  lemma PartsMakeTheTarget(p: Platform, v: View, doc: Document)
    ensures AfterPages(p, v, doc) == Target(p, v, doc)
  {
  }

  lemma StoppedInMonitors(p: Platform, v: View, w: View, doc: Document)
    requires Parsed(p, doc) && Accepts(p, v, doc) && M.MonitorsStopped(p, AfterChannels(p, v, doc), w, doc.monitors)
    ensures Interrupted(p, v, w, doc)
  {
    hide Parsed, Accepts, Applied, Between, WindowsBetween, NewWindows, DefaultAfter;
    FinishedObjects(p, v, doc);
    NoRuleYet(p, v, doc);
    NoPageYet(p, v, doc);
    NoWindowYet(p, v, doc);
  }

  lemma StoppedInRules(p: Platform, v: View, w: View, doc: Document)
    requires Parsed(p, doc) && Accepts(p, v, doc) && R.RulesStopped(p, AfterMonitors(p, v, doc), w, doc.rules)
    ensures Interrupted(p, v, w, doc)
  {
    hide Parsed, Accepts, Applied, Between, WindowsBetween, NewWindows, DefaultAfter;
    FinishedObjects(p, v, doc);
    NoPageYet(p, v, doc);
    NoWindowYet(p, v, doc);
  }

  lemma StoppedInWindows(p: Platform, v: View, w: View, doc: Document, j: nat)
    requires Parsed(p, doc) && Accepts(p, v, doc) && j <= |NewWindows(p, v.windows, doc.windows)|
    requires w == AfterRules(p, v, doc).(windows := v.windows + NewWindows(p, v.windows, doc.windows)[..j])
    ensures Interrupted(p, v, w, doc)
  {
    hide Parsed, Accepts, Applied, Between, NewWindows, DefaultAfter;
    FinishedObjects(p, v, doc);
    FinishedReferrers(p, v, doc);
    NoPageYet(p, v, doc);
  }

  lemma StoppedInPages(p: Platform, v: View, w: View, doc: Document)
    requires Parsed(p, doc) && Accepts(p, v, doc) && P.PagesStopped(p, AfterWindows(p, v, doc), w, doc.pages)
    ensures Interrupted(p, v, w, doc)
  {
    hide Parsed, Accepts, Applied, Between, WindowsBetween, NewWindows, DefaultAfter;
    FinishedObjects(p, v, doc);
    FinishedReferrers(p, v, doc);
    FinishedWindows(p, v, doc);
  }

  lemma AcceptedParts(p: Platform, v: View, doc: Document)
    requires Parsed(p, doc) && Accepts(p, v, doc)
    ensures Distinct(ChannelKey(), doc.channels) && C.OneDefault(doc.channels) && Accepted(ChannelRule(p), ChannelKey(), v.channels, doc.channels)
    ensures Distinct(MonitorKey(), doc.monitors) && Accepted(MonitorRule(p), MonitorKey(), v.monitors, doc.monitors)
    ensures Distinct(RuleKey(p), doc.rules) && Accepted(RuleRule(p), RuleKey(p), v.rules, doc.rules)
    ensures Distinct(PageKey(p), doc.pages) && Accepted(PageRule(p), PageKey(p), v.pages, doc.pages)
    ensures RefsKnown(v, doc) && WindowsAccepted(p, v.windows, doc.windows)
  {
  }

  /** Channels, then the monitors attached to them. */
  method ApplyObjects(store: Store, p: Platform, plan: Plan, ghost doc: Document) returns (ok: bool)
    requires S.Valid(store.db) && Parsed(p, doc) && Accepts(p, S.Seen(store.db), doc) && PlanFits(p, store.db, doc, plan)
    modifies store
    ensures S.Valid(store.db) && store.db.rules == old(store.db).rules && store.db.pages == old(store.db).pages
    ensures ok ==> S.Seen(store.db) == AfterMonitors(p, old(S.Seen(store.db)), doc)
    ensures !ok ==> Interrupted(p, old(S.Seen(store.db)), S.Seen(store.db), doc)
  {
    hide S.Seen, S.Valid, Interrupted, Accepts, Parsed, ConfigChannels.NextChannelView, ConfigMonitors.NextMonitorView,
      C.ChannelsPlanned, M.MonitorsPlanned, C.ChannelsStopped, M.MonitorsStopped, Accepted, R.RulesPlanned, P.PagesPlanned, RefsKnown,
      R.RuleRefsIn, R.WindowsPlanned, R.WindowRefsIn, P.PageRefsIn, M.ChannelRefsIn, ChannelKeys, MonitorKeys;
    ghost var v := S.Seen(store.db);
    AcceptedParts(p, v, doc);
    ObjectsKnown(v, doc);
    ok := C.ApplyChannels(store, p, plan.channels, v, doc.channels);
    if !ok { StoppedInChannels(p, v, S.Seen(store.db), doc); return; }
    ChannelsKnown(p, v, doc, AfterChannels(p, v, doc));
    S.KeysSeen(store.db);
    ok := M.ApplyMonitors(store, p, plan.monitors, AfterChannels(p, v, doc), doc.monitors);
    if !ok { StoppedInMonitors(p, v, S.Seen(store.db), doc); }
  }

  lemma ObjectsKnown(v: View, doc: Document)
    requires RefsKnown(v, doc)
    ensures M.ChannelRefsIn(doc.monitors, v.channels.Keys + ChannelKeys(doc))
  {
  }

  /** The rules and windows that refer to them. found is the instance the plan was made on. */
  method ApplyReferrers(store: Store, p: Platform, plan: Plan, ghost doc: Document, ghost found: S.Db) returns (ok: bool)
    requires S.Valid(store.db) && Parsed(p, doc) && Accepts(p, S.Seen(found), doc) && PlanFits(p, found, doc, plan)
    requires S.Seen(store.db) == AfterMonitors(p, S.Seen(found), doc) && store.db.rules == found.rules && store.db.pages == found.pages
    modifies store
    ensures S.Valid(store.db) && store.db.pages == found.pages
    ensures ok ==> S.Seen(store.db) == AfterWindows(p, S.Seen(found), doc)
    ensures !ok ==> Interrupted(p, S.Seen(found), S.Seen(store.db), doc)
  {
    hide S.Seen, S.Valid, Interrupted, Accepts, Parsed, ConfigChannels.NextChannelView, ConfigMonitors.NextMonitorView, NextRule,
      ConfigPages.NextPage, NewWindows, C.ChannelsPlanned, M.MonitorsPlanned, Accepted, R.RulesPlanned, P.PagesPlanned, RefsKnown,
      R.RulesStopped, P.PagesStopped, ChannelKeys, MonitorKeys, Storable, R.RuleRefsIn, R.WindowsPlanned, R.WindowRefsIn, P.PageRefsIn;
    ghost var v := S.Seen(found);
    ghost var all := NewWindows(p, v.windows, doc.windows);
    AcceptedParts(p, v, doc);
    ChannelsKnown(p, v, doc, AfterChannels(p, v, doc));
    MonitorsKnown(p, v, doc, AfterMonitors(p, v, doc));
    S.KeysSeen(store.db);
    ok := R.ApplyRules(store, p, plan.rules, AfterMonitors(p, v, doc), doc.rules);
    if !ok { StoppedInRules(p, v, S.Seen(store.db), doc); return; }
    ok := R.ApplyWindows(store, p, plan.windows, AfterRules(p, v, doc), all);
    if !ok {
      ghost var j :| 0 <= j <= |all| && S.Seen(store.db) == AfterRules(p, v, doc).(windows := v.windows + all[..j]);
      StoppedInWindows(p, v, S.Seen(store.db), doc, j);
    }
  }

  /** The status pages, which refer to monitors. */
  method ApplyLast(store: Store, p: Platform, plan: Plan, ghost doc: Document, ghost found: S.Db) returns (ok: bool)
    requires S.Valid(store.db) && Parsed(p, doc) && Accepts(p, S.Seen(found), doc) && PlanFits(p, found, doc, plan)
    requires S.Seen(store.db) == AfterWindows(p, S.Seen(found), doc) && store.db.pages == found.pages
    modifies store
    ensures S.Valid(store.db)
    ensures ok ==> S.Seen(store.db) == Target(p, S.Seen(found), doc)
    ensures !ok ==> Interrupted(p, S.Seen(found), S.Seen(store.db), doc)
  {
    hide S.Seen, S.Valid, Interrupted, Accepts, Parsed, ConfigChannels.NextChannelView, ConfigMonitors.NextMonitorView, NextRule,
      ConfigPages.NextPage, NewWindows, C.ChannelsPlanned, M.MonitorsPlanned, Accepted, R.RulesPlanned, P.PagesPlanned, RefsKnown,
      P.PagesStopped, ChannelKeys, MonitorKeys, R.RuleRefsIn, R.WindowsPlanned, R.WindowRefsIn, P.PageRefsIn, Target;
    ghost var v := S.Seen(found);
    AcceptedParts(p, v, doc);
    MonitorsKnown(p, v, doc, AfterMonitors(p, v, doc));
    S.KeysSeen(store.db);
    PartsMakeTheTarget(p, v, doc);
    ok := P.ApplyPages(store, p, plan.pages, AfterWindows(p, v, doc), doc.pages);
    if !ok { StoppedInPages(p, v, S.Seen(store.db), doc); }
  }

  /** applyImport: the instance ends in the file's target, or stops where importing the file again
      completes it. */
  method ApplyImport(store: Store, p: Platform, plan: Plan, ghost doc: Document) returns (ok: bool)
    requires S.Valid(store.db) && Parsed(p, doc) && Accepts(p, S.Seen(store.db), doc) && PlanFits(p, store.db, doc, plan)
    modifies store
    ensures S.Valid(store.db)
    ensures ok ==> S.Seen(store.db) == Target(p, old(S.Seen(store.db)), doc)
    ensures !ok ==> Interrupted(p, old(S.Seen(store.db)), S.Seen(store.db), doc)
  {
    hide S.Seen, S.Valid, Interrupted, Accepts, Parsed, PlanFits, AfterWindows, AfterMonitors, Target;
    ghost var found := store.db;
    ok := ApplyObjects(store, p, plan, doc);
    if !ok { return; }
    ok := ApplyReferrers(store, p, plan, doc, found);
    if !ok { return; }
    ok := ApplyLast(store, p, plan, doc, found);
  }
}
