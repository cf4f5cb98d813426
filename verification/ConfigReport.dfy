/** What a plan reports (importItem.Action and the summary of planImport, internal/api/config_import.go):
    an entry counts as unchanged exactly when its object is as it describes it. So an instance that meets
    the rules plans nothing for its own export, and a file just imported plans nothing again, each but for
    the one case that is named. */
module ConfigReport {
  import opened Prelude
  import opened MonitorRules
  import opened KeyedMerge
  import opened ConfigModel
  import opened ConfigChannels
  import opened ConfigMonitors
  import opened ConfigRules
  import opened ConfigPages
  import opened ConfigSpec
  import opened ConfigExport
  import opened ConfigWrite
  import S = ConfigStore
  import opened ConfigCalls
  import opened ConfigSteps
  import opened ConfigImport
  import opened ConfigPlan
  import opened ConfigRuns
  import C = ConfigApplyChannels
  import M = ConfigApplyMonitors
  import R = ConfigApplyRules
  import P = ConfigApplyPages

  /** No step of the plan writes anything. */
  ghost predicate NothingToWrite(plan: Plan) {
    && (forall i :: 0 <= i < |plan.channels| ==> plan.channels[i].Action() == Unchanged)
    && (forall i :: 0 <= i < |plan.monitors| ==> plan.monitors[i].Action() == Unchanged)
    && (forall i :: 0 <= i < |plan.rules| ==> plan.rules[i].Action() == Unchanged)
    && plan.windows == []
    && (forall i :: 0 <= i < |plan.pages| ==> plan.pages[i].Action() == Unchanged)
  }

  // ------------------------------------------------------------------------ step by step

  lemma ChannelReported(p: Platform, v: View, ids: map<Key, S.Id>, x: ChannelEntry, st: ChannelStep)
    requires C.ChannelPlanned(p, v, ids, x, st)
    ensures st.Action() == ActionOf(x.key in v.channels, !ChannelUnchanged(p, v, x))
  {
    hide NextChannel, NormalQuiet;
  }

  lemma MonitorReported(p: Platform, v: View, ids: map<Key, S.Id>, x: MonitorEntry, st: MonitorStep)
    requires M.MonitorPlanned(p, v.monitors, ids, x, st)
    ensures st.Action() == ActionOf(x.key in v.monitors, !MonitorUnchanged(p, v, x))
  {
    hide Planned, Changed, Undated;
  }

  lemma RuleReported(p: Platform, v: View, rows: map<TagPair, S.RuleRow>, x: RuleEntry, st: RuleStep)
    requires R.RulePlanned(p, v.rules, rows, x, st)
    ensures st.Action() == ActionOf(RulePair(p, x) in v.rules, !RuleUnchanged(p, v, x))
  {
    hide TagPairOf, TagOk;
  }

  lemma PageReported(p: Platform, v: View, rows: map<string, S.PageRow>, x: PageEntry, st: PageStep)
    requires P.PagePlanned(p, v.pages, rows, x, st)
    ensures st.Action() == ActionOf(SlugOf(p, x) in v.pages, !PageUnchanged(p, v, x))
  {
    hide SlugOf, SlugOk, NormalPage, EntriesOk;
  }

  /** No window is created exactly when each one listed is there. */
  lemma WindowsReported(p: Platform, ws: seq<Window>, xs: seq<WindowEntry>, steps: seq<WindowStep>)
    requires R.WindowsPlanned(p, NewWindows(p, ws, xs), steps)
    ensures steps == [] <==> forall i :: 0 <= i < |xs| ==> WindowOf(p, xs[i]) in ws
  {
    hide WindowOf, Storable;
    FreshIsNew(ws, Described(p, xs), |xs|);
    assert forall i :: 0 <= i < |xs| ==> Described(p, xs)[i] == WindowOf(p, xs[i]);
  }

  // ------------------------------------------------------------------------ the whole plan

  lemma ChannelsReported(p: Platform, v: View, ids: map<Key, S.Id>, xs: seq<ChannelEntry>, steps: seq<ChannelStep>)
    requires C.ChannelsPlanned(p, v, ids, xs, steps)
    ensures |steps| == |xs| && forall i :: 0 <= i < |xs| ==> steps[i].Action() == ActionOf(xs[i].key in v.channels, !ChannelUnchanged(p, v, xs[i]))
  {
    hide C.ChannelPlanned, ChannelUnchanged;
    forall i | 0 <= i < |xs| ensures steps[i].Action() == ActionOf(xs[i].key in v.channels, !ChannelUnchanged(p, v, xs[i])) {
      ChannelReported(p, v, ids, xs[i], steps[i]);
    }
  }

  lemma MonitorsReported(p: Platform, v: View, ids: map<Key, S.Id>, xs: seq<MonitorEntry>, steps: seq<MonitorStep>)
    requires M.MonitorsPlanned(p, v.monitors, ids, xs, steps)
    ensures |steps| == |xs| && forall i :: 0 <= i < |xs| ==> steps[i].Action() == ActionOf(xs[i].key in v.monitors, !MonitorUnchanged(p, v, xs[i]))
  {
    hide M.MonitorPlanned, MonitorUnchanged;
    forall i | 0 <= i < |xs| ensures steps[i].Action() == ActionOf(xs[i].key in v.monitors, !MonitorUnchanged(p, v, xs[i])) {
      MonitorReported(p, v, ids, xs[i], steps[i]);
    }
  }

  lemma RulesReported(p: Platform, v: View, rows: map<TagPair, S.RuleRow>, xs: seq<RuleEntry>, steps: seq<RuleStep>)
    requires R.RulesPlanned(p, v.rules, rows, xs, steps)
    ensures |steps| == |xs| && forall i :: 0 <= i < |xs| ==> steps[i].Action() == ActionOf(RulePair(p, xs[i]) in v.rules, !RuleUnchanged(p, v, xs[i]))
  {
    hide R.RulePlanned, RuleUnchanged;
    forall i | 0 <= i < |xs| ensures steps[i].Action() == ActionOf(RulePair(p, xs[i]) in v.rules, !RuleUnchanged(p, v, xs[i])) {
      RuleReported(p, v, rows, xs[i], steps[i]);
    }
  }

  lemma PagesReported(p: Platform, v: View, rows: map<string, S.PageRow>, xs: seq<PageEntry>, steps: seq<PageStep>)
    requires P.PagesPlanned(p, v.pages, rows, xs, steps)
    ensures |steps| == |xs| && forall i :: 0 <= i < |xs| ==> steps[i].Action() == ActionOf(SlugOf(p, xs[i]) in v.pages, !PageUnchanged(p, v, xs[i]))
  {
    hide P.PagePlanned, PageUnchanged;
    forall i | 0 <= i < |xs| ensures steps[i].Action() == ActionOf(SlugOf(p, xs[i]) in v.pages, !PageUnchanged(p, v, xs[i])) {
      PageReported(p, v, rows, xs[i], steps[i]);
    }
  }

  /** Entry for entry, the plan reports an object the instance lacks as created, one that is as the file
      describes it as unchanged, and any other as updated. */
  ghost predicate ReportsEach(p: Platform, v: View, doc: Document, plan: Plan) {
    && |plan.channels| == |doc.channels| && |plan.monitors| == |doc.monitors| && |plan.rules| == |doc.rules| && |plan.pages| == |doc.pages|
    && (forall i :: 0 <= i < |doc.channels| ==>
          plan.channels[i].Action() == ActionOf(doc.channels[i].key in v.channels, !ChannelUnchanged(p, v, doc.channels[i])))
    && (forall i :: 0 <= i < |doc.monitors| ==>
          plan.monitors[i].Action() == ActionOf(doc.monitors[i].key in v.monitors, !MonitorUnchanged(p, v, doc.monitors[i])))
    && (forall i :: 0 <= i < |doc.rules| ==>
          plan.rules[i].Action() == ActionOf(RulePair(p, doc.rules[i]) in v.rules, !RuleUnchanged(p, v, doc.rules[i])))
    && (plan.windows == [] <==> forall i :: 0 <= i < |doc.windows| ==> WindowOf(p, doc.windows[i]) in v.windows)
    && (forall i :: 0 <= i < |doc.pages| ==>
          plan.pages[i].Action() == ActionOf(SlugOf(p, doc.pages[i]) in v.pages, !PageUnchanged(p, v, doc.pages[i])))
  }

  lemma PlanReports(p: Platform, db: S.Db, doc: Document, plan: Plan)
    requires PlanFits(p, db, doc, plan)
    ensures ReportsEach(p, S.Seen(db), doc, plan)
    ensures NothingToWrite(plan) <==> PlansAsUnchanged(p, S.Seen(db), doc)
  {
    hide S.Seen, C.ChannelsPlanned, M.MonitorsPlanned, R.RulesPlanned, R.WindowsPlanned, P.PagesPlanned, NewWindows, WindowOf, ChannelUnchanged,
      MonitorUnchanged, RuleUnchanged, PageUnchanged, ChannelStep.Action, MonitorStep.Action, RuleStep.Action, PageStep.Action;
    var v := S.Seen(db);
    ChannelsReported(p, v, db.channelKeys.idOf, doc.channels, plan.channels);
    MonitorsReported(p, v, db.monitorKeys.idOf, doc.monitors, plan.monitors);
    RulesReported(p, v, db.rules, doc.rules, plan.rules);
    WindowsReported(p, v.windows, doc.windows, plan.windows);
    PagesReported(p, v, db.pages, doc.pages, plan.pages);
    UnchangedAreThere(p, v, doc);
  }

  lemma UnchangedAreThere(p: Platform, v: View, doc: Document)
    ensures forall x :: ChannelUnchanged(p, v, x) ==> x.key in v.channels
    ensures forall x :: MonitorUnchanged(p, v, x) ==> x.key in v.monitors
    ensures forall x :: RuleUnchanged(p, v, x) ==> RulePair(p, x) in v.rules
    ensures forall x :: PageUnchanged(p, v, x) ==> SlugOf(p, x) in v.pages
  {
    hide NextChannelView, NextRule, NextPage, Planned, Changed, RulePair, SlugOf;
  }

  // -------------------------------------------------------------------- the own export

  /** An export can be parsed: its keys are given once, and one channel at most is the default. */
  lemma ExportIsParsed(p: Platform, v: View, doc: Document)
    requires MeetsRules(p, v) && IsExport(p, v, doc)
    ensures Parsed(p, doc)
  {
    OwnKeys(p, v, doc);
    hide MeetsRules, WritesMonitor, WritesRule, WritesPage, WritesOneOf, ExportedConfig;
    forall i, j | 0 <= i < j < |doc.channels| ensures !(doc.channels[i].isDefault && doc.channels[j].isDefault) {
      assert ChannelKey()(doc.channels[i]) != ChannelKey()(doc.channels[j]);
    }
  }

  /** An instance that meets the rules, exported and planned again, has nothing to write exactly when every
      channel with a setting still to be filled in is switched off. */
  method PlanOwnExport(p: Platform, db: S.Db, days: nat -> seq<int>, now: int) returns (plan: Option<Plan>)
    requires S.Valid(db) && FullyKeyed(db) && Dependable(p) && MeetsRules(p, S.Seen(db))
    requires forall i :: 0 <= i < |db.windows| ==> multiset(days(i)) == db.windows[i].spec.weekdays
    ensures plan.Some? && (NothingToWrite(plan.value) <==> UnfilledAreOff(p, S.Seen(db)))
  {
    hide S.Valid, S.Seen, FullyKeyed, Dependable, MeetsRules, IsExport, ConfigWrite.Complete, Accepts, Parsed, PlansAsUnchanged, UnfilledAreOff,
      PlanFits, NothingToWrite;
    var doc := ExportConfig(p, db, days, now);
    ExportIsParsed(p, S.Seen(db), doc);
    plan := PlanImport(p, db, doc, now);
    PlanReports(p, db, doc, plan.value);
  }

  // ---------------------------------------------------------------- the file just imported

  /** No http monitor of the file is sent its method, expected status or keyword mode as empty text. */
  ghost predicate SendsNoBlank(p: Platform, v: View, doc: Document) {
    forall i :: 0 <= i < |doc.monitors| ==>
      doc.monitors[i].key in v.monitors && !SendsBlank(p.rules, doc.monitors[i], v.monitors[doc.monitors[i].key].monitor.typ)
  }

  lemma ImportedIsUnchanged(p: Platform, v: View, doc: Document)
    requires Dependable(p) && Parsed(p, doc) && Proper(p, v) && Accepts(p, v, doc)
    ensures Accepts(p, Target(p, v, doc), doc)
    ensures PlansAsUnchanged(p, Target(p, v, doc), doc) <==> SendsNoBlank(p, Target(p, v, doc), doc)
  {
    hide Dependable, Parsed, Proper, Accepts, Target, ChannelUnchanged, MonitorUnchanged, RuleUnchanged, PageUnchanged, SendsBlank, WindowOf;
    TargetOfTarget(p, v, doc);
    NextPlanIsUnchanged(p, v, doc);
  }

  /** Importing a file and planning it again: the plan has nothing to write exactly when the file sends no
      http monitor's method, expected status or keyword mode as empty text. */
  method PlanAfterImport(store: Store, p: Platform, doc: Document, now: int, later: int) returns (plan: Option<Plan>)
    requires S.Valid(store.db) && Dependable(p) && Parsed(p, doc)
    requires Proper(p, S.Seen(store.db)) && Accepts(p, S.Seen(store.db), doc)
    modifies store
    ensures S.Valid(store.db)
    ensures plan.Some? ==> S.Seen(store.db) == Target(p, old(S.Seen(store.db)), doc)
    ensures plan.Some? ==> (NothingToWrite(plan.value) <==> SendsNoBlank(p, S.Seen(store.db), doc))
    ensures plan.None? ==> Interrupted(p, old(S.Seen(store.db)), S.Seen(store.db), doc)
  {
    hide S.Valid, S.Seen, Dependable, Parsed, Proper, Accepts, Target, Interrupted, PlanFits, NothingToWrite, SendsNoBlank, PlansAsUnchanged;
    ImportedIsUnchanged(p, S.Seen(store.db), doc);
    var a := Import(store, p, doc, now);
    if a != Attempt.Complete { return None; }
    plan := PlanImport(p, store.db, doc, later);
    PlanReports(p, store.db, doc, plan.value);
  }

  // ------------------------------------------------------------- what unchanged comes to

  lemma {:induction false} AppliedIsThere<K(!new), T(!new), E>(rule: Rule<T, E>, keyOf: E -> K, m: map<K, T>, es: seq<E>, n: nat)
    requires n <= |es| && forall i :: 0 <= i < |es| ==> keyOf(es[i]) in m && rule(Some(m[keyOf(es[i])]), es[i]) == Some(m[keyOf(es[i])])
    ensures Applied(rule, keyOf, m, es, n) == m
  {
    if n > 0 { AppliedIsThere(rule, keyOf, m, es, n - 1); }
  }

  lemma {:induction false} DefaultIsThere(was: Option<Ref>, xs: seq<ChannelEntry>, n: nat)
    requires n <= |xs| && forall i :: 0 <= i < |xs| && xs[i].isDefault ==> was == Some(Keyed(xs[i].key))
    ensures DefaultAfter(was, xs, n) == was
  {
    if n > 0 { DefaultIsThere(was, xs, n - 1); }
  }

  /** A file that plans as unchanged is one whose import changes nothing. */
  lemma UnchangedIsTarget(p: Platform, v: View, doc: Document)
    requires PlansAsUnchanged(p, v, doc)
    ensures Target(p, v, doc) == v
  {
    hide NextChannelView, NextRule, NextPage, Planned, Changed, WindowOf;
    AppliedIsThere(ChannelRule(p), ChannelKey(), v.channels, doc.channels, |doc.channels|);
    DefaultIsThere(v.defaultChannel, doc.channels, |doc.channels|);
    AppliedIsThere(MonitorRule(p), MonitorKey(), v.monitors, doc.monitors, |doc.monitors|);
    AppliedIsThere(RuleRule(p), RuleKey(p), v.rules, doc.rules, |doc.rules|);
    FreshIsNew(v.windows, Described(p, doc.windows), |doc.windows|);
    AppliedIsThere(PageRule(p), PageKey(p), v.pages, doc.pages, |doc.pages|);
  }
}
