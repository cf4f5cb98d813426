/** What importing a file means, independent of ids and of the order writes happen in: the view it
    accepts, the view it ends in, and the views a failure can leave. The main result is that importing
    the file again from any of those ends where one uninterrupted import would have ended. */
module ConfigSpec {
  import opened Prelude
  import opened MonitorRules
  import opened MonitorPatch
  import opened KeyedMerge
  import opened ConfigModel
  import opened ConfigChannels
  import opened ConfigMonitors
  import opened ConfigRules
  import opened ConfigPages

  // ------------------------------------------------------------------ each section's rule

  function ChannelRule(p: Platform): Rule<ChannelView, ChannelEntry> { (v, x) => NextChannelView(p, v, x) }
  function MonitorRule(p: Platform): Rule<MonitorView, MonitorEntry> { (v, x) => NextMonitorView(p, v, x) }
  function RuleRule(p: Platform): Rule<RuleView, RuleEntry> { (v, x) => NextRule(p, v, x) }
  function PageRule(p: Platform): Rule<PageView, PageEntry> { (v, x) => NextPage(p, v, x) }

  function ChannelKey(): ChannelEntry -> Key { (x: ChannelEntry) => x.key }
  function MonitorKey(): MonitorEntry -> Key { (x: MonitorEntry) => x.key }
  function RuleKey(p: Platform): RuleEntry -> TagPair { x => RulePair(p, x) }
  function PageKey(p: Platform): PageEntry -> string { x => SlugOf(p, x) }

  function ChannelParts(): Partial<ChannelView> { (v, s, t) => ChannelHalf(v, s, t) }
  function MonitorParts(): Partial<MonitorView> { (v, s, t) => MonitorHalf(v, s, t) }
  ghost function RuleParts(): Partial<RuleView> { (v, s, t) => RuleHalf(v, s, t) }
  function PageParts(): Partial<PageView> { (v, s, t) => PageHalf(v, s, t) }

  // ----------------------------------------------------------------------- the whole file

  /** The file as the parser hands it over (configfile.Document.check): keys and slugs are given once,
      and at most one channel is the default. */
  ghost predicate Parsed(p: Platform, doc: Document) {
    && Distinct(ChannelKey(), doc.channels) && Distinct(MonitorKey(), doc.monitors) && Distinct(PageKey(p), doc.pages)
    && (forall i, j :: 0 <= i < j < |doc.channels| ==> !(doc.channels[i].isDefault && doc.channels[j].isDefault))
  }

  function ChannelKeys(doc: Document): set<Key> { set x | x in doc.channels :: x.key }
  function MonitorKeys(doc: Document): set<Key> { set x | x in doc.monitors :: x.key }

  ghost predicate Known(keys: Option<seq<Key>>, known: set<Key>) { keys.Some? ==> forall k :: k in keys.value ==> k in known }

  /** Every reference names an object of the file or a keyed object of the instance. */
  ghost predicate RefsKnown(v: View, doc: Document) {
    var channels, monitors := v.channels.Keys + ChannelKeys(doc), v.monitors.Keys + MonitorKeys(doc);
    && (forall i :: 0 <= i < |doc.monitors| ==> Known(doc.monitors[i].channels, channels))
    && (forall i :: 0 <= i < |doc.rules| ==> Known(doc.rules[i].channels, channels) && Known(doc.rules[i].exclude, monitors))
    && (forall i :: 0 <= i < |doc.windows| ==> doc.windows[i].monitor == "" || doc.windows[i].monitor in monitors)
    && (forall i :: 0 <= i < |doc.pages| && doc.pages[i].monitors.Some? ==>
          forall e :: e in doc.pages[i].monitors.value ==> e.monitor in monitors)
  }

  /** planImport accepts the file. */
  ghost predicate Accepts(p: Platform, v: View, doc: Document) {
    && RefsKnown(v, doc) && Distinct(RuleKey(p), doc.rules)
    && Accepted(ChannelRule(p), ChannelKey(), v.channels, doc.channels)
    && Accepted(MonitorRule(p), MonitorKey(), v.monitors, doc.monitors)
    && Accepted(RuleRule(p), RuleKey(p), v.rules, doc.rules)
    && Accepted(PageRule(p), PageKey(p), v.pages, doc.pages)
    && WindowsAccepted(p, v.windows, doc.windows)
  }

  function DefaultAfter(was: Option<Ref>, xs: seq<ChannelEntry>, n: nat): Option<Ref>
    requires n <= |xs|
  {
    if n == 0 then was else if xs[n - 1].isDefault then Some(Keyed(xs[n - 1].key)) else DefaultAfter(was, xs, n - 1)
  }

  /** The view one uninterrupted import of the file leaves. */
  function Target(p: Platform, v: View, doc: Document): View {
    View(
      Applied(ChannelRule(p), ChannelKey(), v.channels, doc.channels, |doc.channels|),
      DefaultAfter(v.defaultChannel, doc.channels, |doc.channels|),
      Applied(MonitorRule(p), MonitorKey(), v.monitors, doc.monitors, |doc.monitors|),
      Applied(RuleRule(p), RuleKey(p), v.rules, doc.rules, |doc.rules|),
      v.windows + NewWindows(p, v.windows, doc.windows),
      Applied(PageRule(p), PageKey(p), v.pages, doc.pages, |doc.pages|))
  }

  /** w is what v can have become when an import of the file stopped at one of its store calls. */
  ghost predicate Interrupted(p: Platform, v: View, w: View, doc: Document) {
    && Between(ChannelRule(p), ChannelParts(), ChannelKey(), v.channels, w.channels, doc.channels)
    && (w.defaultChannel == v.defaultChannel || w.defaultChannel == DefaultAfter(v.defaultChannel, doc.channels, |doc.channels|))
    && Between(MonitorRule(p), MonitorParts(), MonitorKey(), v.monitors, w.monitors, doc.monitors)
    && Between(RuleRule(p), RuleParts(), RuleKey(p), v.rules, w.rules, doc.rules)
    && WindowsBetween(p, v.windows, w.windows, doc.windows)
    && Between(PageRule(p), PageParts(), PageKey(p), v.pages, w.pages, doc.pages)
  }

  /** The same configuration: windows are compared as a set, and a window the file lists twice counts
      once. */
  ghost predicate SameConfig(a: View, b: View) {
    && a.channels == b.channels && a.defaultChannel == b.defaultChannel && a.monitors == b.monitors
    && a.rules == b.rules && a.pages == b.pages && (forall w :: w in a.windows <==> w in b.windows)
  }

  /** What every view of a store satisfies: saved names are trimmed, and monitors are stored rows
      without the time of their pin. */
  ghost predicate Proper(p: Platform, v: View) {
    && (forall k :: k in v.channels ==> Named(Some(v.channels[k].channel)))
    && (forall k :: k in v.monitors ==> ProperMonitor(p, v.monitors[k]))
  }

  ghost predicate ProperMonitor(p: Platform, m: MonitorView) {
    AsStored(p.rules, Some(m.monitor)) && Undated(m.monitor) == m.monitor
  }

  // ------------------------------------------------------------------- import it again

  lemma ChannelsConverge(p: Platform, v: View, w: View, doc: Document)
    requires Dependable(p) && Parsed(p, doc) && Proper(p, v) && Interrupted(p, v, w, doc)
    ensures Accepted(ChannelRule(p), ChannelKey(), w.channels, doc.channels)
    ensures Target(p, w, doc).channels == Target(p, v, doc).channels
  {
    var rule, half := ChannelRule(p), ChannelParts();
    forall i, s | 0 <= i < |doc.channels| && rule(Get(v.channels, doc.channels[i].key), doc.channels[i]).Some?
      && half(Get(v.channels, doc.channels[i].key), s, rule(Get(v.channels, doc.channels[i].key), doc.channels[i]).value)
      ensures rule(s, doc.channels[i]) == rule(Get(v.channels, doc.channels[i].key), doc.channels[i])
    {
      ChannelStable(p, Get(v.channels, doc.channels[i].key), s, doc.channels[i]);
    }
    Converges(rule, half, ChannelKey(), v.channels, w.channels, doc.channels);
  }

  lemma MonitorsConverge(p: Platform, v: View, w: View, doc: Document)
    requires Dependable(p) && Parsed(p, doc) && Proper(p, v) && Interrupted(p, v, w, doc)
    ensures Accepted(MonitorRule(p), MonitorKey(), w.monitors, doc.monitors)
    ensures Target(p, w, doc).monitors == Target(p, v, doc).monitors
  {
    hide Lawful, NextMonitorView, MonitorHalf, AsStored, NewWindows, WindowsBetween;
    var rule, half := MonitorRule(p), MonitorParts();
    forall i, s | 0 <= i < |doc.monitors| && rule(Get(v.monitors, doc.monitors[i].key), doc.monitors[i]).Some?
      && half(Get(v.monitors, doc.monitors[i].key), s, rule(Get(v.monitors, doc.monitors[i].key), doc.monitors[i]).value)
      ensures rule(s, doc.monitors[i]) == rule(Get(v.monitors, doc.monitors[i].key), doc.monitors[i])
    {
      var e := Get(v.monitors, doc.monitors[i].key);
      StoredRow(p, v, doc.monitors[i].key);
      MonitorStable(p, e, s, doc.monitors[i], rule(e, doc.monitors[i]).value);
    }
    Converges(rule, half, MonitorKey(), v.monitors, w.monitors, doc.monitors);
  }

  lemma RulesConverge(p: Platform, v: View, w: View, doc: Document)
    requires Distinct(RuleKey(p), doc.rules) && Interrupted(p, v, w, doc)
    ensures Accepted(RuleRule(p), RuleKey(p), w.rules, doc.rules)
    ensures Target(p, w, doc).rules == Target(p, v, doc).rules
  {
    var rule, half, key := RuleRule(p), RuleParts(), RuleKey(p);
    forall i, s | 0 <= i < |doc.rules| && rule(Get(v.rules, key(doc.rules[i])), doc.rules[i]).Some?
      && half(Get(v.rules, key(doc.rules[i])), s, rule(Get(v.rules, key(doc.rules[i])), doc.rules[i]).value)
      ensures rule(s, doc.rules[i]) == rule(Get(v.rules, key(doc.rules[i])), doc.rules[i])
    {
      var e := Get(v.rules, key(doc.rules[i]));
      RuleStable(p, e, s, doc.rules[i], rule(e, doc.rules[i]).value);
    }
    Converges(rule, half, key, v.rules, w.rules, doc.rules);
  }

  lemma PagesConverge(p: Platform, v: View, w: View, doc: Document)
    requires Dependable(p) && Parsed(p, doc) && Interrupted(p, v, w, doc)
    ensures Accepted(PageRule(p), PageKey(p), w.pages, doc.pages)
    ensures Target(p, w, doc).pages == Target(p, v, doc).pages
  {
    var rule, half, key := PageRule(p), PageParts(), PageKey(p);
    forall i, s | 0 <= i < |doc.pages| && rule(Get(v.pages, key(doc.pages[i])), doc.pages[i]).Some?
      && half(Get(v.pages, key(doc.pages[i])), s, rule(Get(v.pages, key(doc.pages[i])), doc.pages[i]).value)
      ensures rule(s, doc.pages[i]) == rule(Get(v.pages, key(doc.pages[i])), doc.pages[i])
    {
      var e := Get(v.pages, key(doc.pages[i]));
      PageStable(p, e, s, doc.pages[i], rule(e, doc.pages[i]).value);
    }
    Converges(rule, half, key, v.pages, w.pages, doc.pages);
  }

  lemma PagesPart(p: Platform, v: View, w: View, doc: Document)
    requires Parsed(p, doc) && Accepts(p, v, doc) && Interrupted(p, v, w, doc)
    ensures Distinct(PageKey(p), doc.pages) && Accepted(PageRule(p), PageKey(p), v.pages, doc.pages)
    ensures Between(PageRule(p), PageParts(), PageKey(p), v.pages, w.pages, doc.pages)
    ensures Target(p, v, doc).pages == Applied(PageRule(p), PageKey(p), v.pages, doc.pages, |doc.pages|)
  {
    hide Between, Accepted, Distinct, WindowsBetween, WindowsAccepted, RefsKnown, Applied;
  }

  /** Wherever an import stopped, no page is shown half built: one it creates or switches on is shown with its
      final entries or not at all, one it switches off never shows new entries, and any other shows its old
      entries or its final ones. */
  lemma NoPageShownHalfBuilt(p: Platform, v: View, w: View, doc: Document, slug: string)
    requires Parsed(p, doc) && Accepts(p, v, doc) && Interrupted(p, v, w, doc)
    ensures var before, now, end := Get(v.pages, slug), Get(w.pages, slug), Get(Target(p, v, doc).pages, slug);
      && (Shown(before).None? && Shown(now).Some? ==> Shown(now) == Shown(end))
      && (Shown(end).None? && Shown(now).Some? ==> Shown(now) == Shown(before))
      && (Shown(now).Some? ==> Shown(now) == Shown(before) || Shown(now) == Shown(end))
  {
    hide Shown, Parsed, Accepts, Interrupted, Target, Applied, PageHalf, NextPage, SlugOf;
    PagesPart(p, v, w, doc);
    var rule, key, n := PageRule(p), PageKey(p), |doc.pages|;
    AppliedAt(rule, key, v.pages, doc.pages, n, slug);
    if i :| 0 <= i < n && key(doc.pages[i]) == slug {
      NeverShownHalfBuilt(Get(v.pages, slug), Get(w.pages, slug), rule(Get(v.pages, slug), doc.pages[i]).value);
    }
  }

  lemma {:induction false} DefaultAgain(was: Option<Ref>, now: Option<Ref>, xs: seq<ChannelEntry>, n: nat)
    requires n <= |xs| && (now == was || now == DefaultAfter(was, xs, n))
    ensures DefaultAfter(now, xs, n) == DefaultAfter(was, xs, n)
  {
    if n > 0 && !xs[n - 1].isDefault { DefaultAgain(was, now, xs, n - 1); }
  }

  /** A stopped import loses no object, so every reference the file makes can still be made. */
  lemma NothingLost<S, E>(rule: Rule<S, E>, half: Partial<S>, keyOf: E -> Key, was: map<Key, S>, now: map<Key, S>, es: seq<E>, keys: set<Key>)
    requires Between(rule, half, keyOf, was, now, es) && forall i :: 0 <= i < |es| ==> keyOf(es[i]) in keys
    ensures was.Keys <= now.Keys + keys
  {
    forall k | k in was && k !in keys ensures k in now {
      assert Get(now, k) == Get(was, k);
    }
  }

  lemma ReferencesAgain(p: Platform, v: View, w: View, doc: Document)
    requires RefsKnown(v, doc) && Interrupted(p, v, w, doc)
    ensures RefsKnown(w, doc)
  {
    hide Between;
    NothingLost(ChannelRule(p), ChannelParts(), ChannelKey(), v.channels, w.channels, doc.channels, ChannelKeys(doc));
    NothingLost(MonitorRule(p), MonitorParts(), MonitorKey(), v.monitors, w.monitors, doc.monitors, MonitorKeys(doc));
    assert v.channels.Keys + ChannelKeys(doc) <= w.channels.Keys + ChannelKeys(doc);
    assert v.monitors.Keys + MonitorKeys(doc) <= w.monitors.Keys + MonitorKeys(doc);
  }

  /** Importing the file again completes it: from every view a failure can leave, the same file is
      accepted, and importing it ends in the configuration one uninterrupted import would have left. */
  lemma ImportAgain(p: Platform, v: View, w: View, doc: Document)
    requires Dependable(p) && Parsed(p, doc) && Proper(p, v) && Accepts(p, v, doc) && Interrupted(p, v, w, doc)
    ensures Accepts(p, w, doc) && SameConfig(Target(p, w, doc), Target(p, v, doc))
  {
    ChannelsConverge(p, v, w, doc);
    MonitorsConverge(p, v, w, doc);
    RulesConverge(p, v, w, doc);
    PagesConverge(p, v, w, doc);
    WindowsConverge(p, v.windows, w.windows, doc.windows);
    DefaultAgain(v.defaultChannel, w.defaultChannel, doc.channels, |doc.channels|);
    ReferencesAgain(p, v, w, doc);
  }

  lemma ProperChannelAt(p: Platform, was: map<Key, ChannelView>, now: map<Key, ChannelView>, xs: seq<ChannelEntry>, k: Key)
    requires Between(ChannelRule(p), ChannelParts(), ChannelKey(), was, now, xs) && k in now && Dependable(p)
    requires k in was ==> Named(Some(was[k].channel))
    ensures Named(Some(now[k].channel))
  {
    hide Dependable, NextChannel, Named, NextQuiet;
    if i :| 0 <= i < |xs| && xs[i].key == k {
      assert ChannelKey()(xs[i]) == k;
      NoneIsNamed();
      ChannelTwice(p, ChannelOf(Get(was, k)), xs[i]);
    } else {
      assert Get(now, k) == Get(was, k);
    }
  }

  lemma NoneIsNamed()
    ensures Named(None)
  {
  }

  lemma ProperChannels(p: Platform, v: View, w: View, doc: Document)
    requires Dependable(p) && Proper(p, v) && Interrupted(p, v, w, doc)
    ensures forall k :: k in w.channels ==> Named(Some(w.channels[k].channel))
  {
    hide Dependable, Between, Named, ProperMonitor, WindowsBetween;
    forall k | k in w.channels ensures Named(Some(w.channels[k].channel)) {
      ProperChannelAt(p, v.channels, w.channels, doc.channels, k);
    }
  }

  lemma ProperMonitorAt(p: Platform, was: map<Key, MonitorView>, now: map<Key, MonitorView>, xs: seq<MonitorEntry>, k: Key)
    requires Between(MonitorRule(p), MonitorParts(), MonitorKey(), was, now, xs) && k in now && Dependable(p)
    requires k in was ==> ProperMonitor(p, was[k])
    ensures ProperMonitor(p, now[k])
  {
    if i :| 0 <= i < |xs| && xs[i].key == k {
      assert MonitorKey()(xs[i]) == k;
      HalfIsProper(p, Get(was, k), xs[i], Get(now, k), MonitorRule(p)(Get(was, k), xs[i]).value);
    } else {
      assert Get(now, k) == Get(was, k);
    }
  }

  lemma HalfIsProper(p: Platform, e: Option<MonitorView>, x: MonitorEntry, s: Option<MonitorView>, t: MonitorView)
    requires Dependable(p) && (e.Some? ==> ProperMonitor(p, e.value))
    requires NextMonitorView(p, e, x) == Some(t) && MonitorHalf(e, s, t)
    ensures s.Some? ==> ProperMonitor(p, s.value)
  {
    NextIsProper(p, e, x, t);
  }

  lemma NextIsProper(p: Platform, e: Option<MonitorView>, x: MonitorEntry, t: MonitorView)
    requires Dependable(p) && AsStored(p.rules, MonitorOf(e)) && UndatedIf(MonitorOf(e)) == MonitorOf(e)
    requires NextMonitorView(p, e, x) == Some(t)
    ensures ProperMonitor(p, t)
  {
    NextMonitorTwice(p.rules, MonitorOf(e), x, 0, t.monitor);
    UndatedNext(p.rules, MonitorOf(e), x, 0);
  }

  lemma ProperAfter(p: Platform, v: View, w: View, doc: Document)
    requires Dependable(p) && Proper(p, v) && Interrupted(p, v, w, doc)
    ensures Proper(p, w)
  {
    ProperChannels(p, v, w, doc);
    forall k | k in w.monitors ensures ProperMonitor(p, w.monitors[k]) {
      ProperMonitorAt(p, v.monitors, w.monitors, doc.monitors, k);
    }
  }

  /** The file can be imported from now, and its import ends where one from the start would have. */
  ghost predicate CanComplete(p: Platform, start: View, now: View, doc: Document) {
    Proper(p, now) && Accepts(p, now, doc) && SameConfig(Target(p, now, doc), Target(p, start, doc))
  }

  lemma OneMoreAttempt(p: Platform, start: View, v: View, w: View, doc: Document)
    requires Dependable(p) && Parsed(p, doc) && CanComplete(p, start, v, doc) && Interrupted(p, v, w, doc)
    ensures CanComplete(p, start, w, doc)
  {
    ImportAgain(p, v, w, doc);
    ProperAfter(p, v, w, doc);
  }

  lemma StartCanComplete(p: Platform, v: View, doc: Document)
    requires Proper(p, v) && Accepts(p, v, doc)
    ensures CanComplete(p, v, v, doc)
  {
    hide Proper, Accepts, Target;
  }

  /** However many attempts failed, each stopping anywhere, the file is still accepted and its import
      still ends where the first would have. */
  lemma EveryAttemptCanComplete(p: Platform, views: seq<View>, doc: Document, n: nat)
    requires Dependable(p) && Parsed(p, doc) && n < |views| && Proper(p, views[0]) && Accepts(p, views[0], doc)
    requires forall i :: 0 <= i < n ==> Interrupted(p, views[i], views[i + 1], doc)
    ensures CanComplete(p, views[0], views[n], doc)
  {
    hide Dependable, Parsed, Proper, Accepts, Interrupted, CanComplete;
    StartCanComplete(p, views[0], doc);
    var step, kept := (v, w) => Interrupted(p, v, w, doc), w => CanComplete(p, views[0], w, doc);
    forall v, w | kept(v) && step(v, w) ensures kept(w) { OneMoreAttempt(p, views[0], v, w, doc); }
    ChainKeeps(step, kept, views, n);
  }

  lemma FinishedKeyed<K(!new), S(!new), E>(rule: Rule<S, E>, half: Partial<S>, keyOf: E -> K, m: map<K, S>, es: seq<E>)
    requires Distinct(keyOf, es) && Accepted(rule, keyOf, m, es)
    requires forall s, t :: half(s, Some(t), t) && half(s, s, t)
    ensures Between(rule, half, keyOf, m, Applied(rule, keyOf, m, es, |es|), es)
  {
    FinishedIsBetween(rule, half, keyOf, m, es, |es|);
  }

  lemma ObjectsHalf()
    ensures forall s, t :: ChannelHalf(s, Some(t), t) && ChannelHalf(s, s, t)
    ensures forall s, t :: MonitorHalf(s, Some(t), t) && MonitorHalf(s, s, t)
  {
  }

  lemma FinishedObjects(p: Platform, v: View, doc: Document)
    requires Parsed(p, doc) && Accepts(p, v, doc)
    ensures Between(ChannelRule(p), ChannelParts(), ChannelKey(), v.channels, Target(p, v, doc).channels, doc.channels)
    ensures Between(MonitorRule(p), MonitorParts(), MonitorKey(), v.monitors, Target(p, v, doc).monitors, doc.monitors)
  {
    hide Between, Accepted, Distinct, Applied, WindowsAccepted, RefsKnown, NewWindows, NextChannelView, NextMonitorView, ChannelHalf, MonitorHalf;
    ObjectsHalf();
    FinishedKeyed(ChannelRule(p), ChannelParts(), ChannelKey(), v.channels, doc.channels);
    FinishedKeyed(MonitorRule(p), MonitorParts(), MonitorKey(), v.monitors, doc.monitors);
  }

  lemma FinishedReferrers(p: Platform, v: View, doc: Document)
    requires Parsed(p, doc) && Accepts(p, v, doc)
    ensures Between(RuleRule(p), RuleParts(), RuleKey(p), v.rules, Target(p, v, doc).rules, doc.rules)
    ensures Between(PageRule(p), PageParts(), PageKey(p), v.pages, Target(p, v, doc).pages, doc.pages)
  {
    hide Between, Accepted, Distinct, Applied, WindowsAccepted, RefsKnown, NewWindows, NextRule, NextPage, RulePair, SlugOf;
    FinishedKeyed(RuleRule(p), RuleParts(), RuleKey(p), v.rules, doc.rules);
    FinishedKeyed(PageRule(p), PageParts(), PageKey(p), v.pages, doc.pages);
  }

  lemma FinishedWindows(p: Platform, v: View, doc: Document)
    ensures WindowsBetween(p, v.windows, Target(p, v, doc).windows, doc.windows)
  {
    var all := NewWindows(p, v.windows, doc.windows);
    assert all[..|all|] == all;
  }

  /** A finished import is one more view to import from, and importing from it changes nothing. */
  lemma FinishedIsInterrupted(p: Platform, v: View, doc: Document)
    requires Parsed(p, doc) && Accepts(p, v, doc)
    ensures Interrupted(p, v, Target(p, v, doc), doc)
  {
    FinishedObjects(p, v, doc);
    FinishedReferrers(p, v, doc);
    FinishedWindows(p, v, doc);
  }

  lemma TargetOfTarget(p: Platform, v: View, doc: Document)
    requires Dependable(p) && Parsed(p, doc) && Proper(p, v) && Accepts(p, v, doc)
    ensures Accepts(p, Target(p, v, doc), doc) && Target(p, Target(p, v, doc), doc) == Target(p, v, doc)
  {
    var t := Target(p, v, doc);
    FinishedIsInterrupted(p, v, doc);
    ImportAgain(p, v, t, doc);
    NothingNew(p, v.windows, doc.windows);
  }

  // ------------------------------------------------------------- what the next plan reports

  predicate ChannelUnchanged(p: Platform, v: View, x: ChannelEntry) {
    && x.key in v.channels && NextChannelView(p, Some(v.channels[x.key]), x) == Some(v.channels[x.key])
    && (x.isDefault ==> v.defaultChannel == Some(Keyed(x.key)))
  }

  predicate MonitorUnchanged(p: Platform, v: View, x: MonitorEntry) {
    && x.key in v.monitors
    && (var m := v.monitors[x.key];
        var planned := Planned(p.rules, Some(m.monitor), x, 0);
        planned.Some? && !Changed(p.rules, m.monitor, planned.value) && (x.channels.Some? ==> Refs(x.channels.value) == m.channels))
  }

  predicate RuleUnchanged(p: Platform, v: View, x: RuleEntry) {
    RulePair(p, x) in v.rules && NextRule(p, Some(v.rules[RulePair(p, x)]), x) == Some(v.rules[RulePair(p, x)])
  }

  predicate PageUnchanged(p: Platform, v: View, x: PageEntry) {
    SlugOf(p, x) in v.pages && NextPage(p, Some(v.pages[SlugOf(p, x)]), x) == Some(v.pages[SlugOf(p, x)])
  }

  /** Every entry finds its object as it describes it. */
  ghost predicate PlansAsUnchanged(p: Platform, v: View, doc: Document) {
    && (forall i :: 0 <= i < |doc.channels| ==> ChannelUnchanged(p, v, doc.channels[i]))
    && (forall i :: 0 <= i < |doc.monitors| ==> MonitorUnchanged(p, v, doc.monitors[i]))
    && (forall i :: 0 <= i < |doc.rules| ==> RuleUnchanged(p, v, doc.rules[i]))
    && (forall i :: 0 <= i < |doc.windows| ==> WindowOf(p, doc.windows[i]) in v.windows)
    && (forall i :: 0 <= i < |doc.pages| ==> PageUnchanged(p, v, doc.pages[i]))
  }

  lemma ChannelsUnchanged(p: Platform, v: View, doc: Document, i: nat)
    requires Dependable(p) && Parsed(p, doc) && Proper(p, v) && Accepts(p, v, doc) && i < |doc.channels|
    ensures ChannelUnchanged(p, Target(p, v, doc), doc.channels[i])
  {
    var x := doc.channels[i];
    AppliedAt(ChannelRule(p), ChannelKey(), v.channels, doc.channels, |doc.channels|, ChannelKey()(x));
    ChannelStable(p, Get(v.channels, x.key), ChannelRule(p)(Get(v.channels, x.key), x), x);
    if x.isDefault { DefaultIs(v.defaultChannel, doc.channels, |doc.channels|, i); }
  }

  lemma {:induction false} DefaultIs(was: Option<Ref>, xs: seq<ChannelEntry>, n: nat, i: nat)
    requires i < n <= |xs| && xs[i].isDefault && forall j, k :: 0 <= j < k < |xs| ==> !(xs[j].isDefault && xs[k].isDefault)
    ensures DefaultAfter(was, xs, n) == Some(Keyed(xs[i].key))
  {
    if n - 1 != i { DefaultIs(was, xs, n - 1, i); }
  }

  lemma MonitorsUnchanged(p: Platform, v: View, doc: Document, i: nat)
    requires Dependable(p) && Parsed(p, doc) && Proper(p, v) && Accepts(p, v, doc) && i < |doc.monitors|
    ensures var x, t := doc.monitors[i], Target(p, v, doc);
            x.key in t.monitors && (MonitorUnchanged(p, t, x) <==> !SendsBlank(p.rules, x, t.monitors[x.key].monitor.typ))
  {
    var x := doc.monitors[i];
    MonitorTargetAt(p, v, doc, i);
    hide Parsed, Accepts, Target, NextMonitor, Planned, Changed, SendsBlank, AsStored, Proper;
    var e := Get(v.monitors, x.key);
    StoredRow(p, v, x.key);
    MonitorUnchangedTwice(p.rules, MonitorOf(e), x, 0, NextMonitorView(p, e, x).value.monitor);
  }

  lemma StoredRow(p: Platform, v: View, k: Key)
    requires Dependable(p) && Proper(p, v)
    ensures Lawful(p.rules) && AsStored(p.rules, MonitorOf(Get(v.monitors, k)))
  {
  }

  lemma MonitorTargetAt(p: Platform, v: View, doc: Document, i: nat)
    requires Parsed(p, doc) && Accepts(p, v, doc) && i < |doc.monitors|
    ensures var x := doc.monitors[i];
      && NextMonitorView(p, Get(v.monitors, x.key), x).Some?
      && Get(Target(p, v, doc).monitors, x.key) == NextMonitorView(p, Get(v.monitors, x.key), x)
  {
    hide NextMonitorView, Distinct, WindowsAccepted, RefsKnown, NewWindows;
    AppliedAt(MonitorRule(p), MonitorKey(), v.monitors, doc.monitors, |doc.monitors|, MonitorKey()(doc.monitors[i]));
  }

  lemma RulesUnchanged(p: Platform, v: View, doc: Document, i: nat)
    requires Accepts(p, v, doc) && i < |doc.rules|
    ensures RuleUnchanged(p, Target(p, v, doc), doc.rules[i])
  {
    hide Distinct, WindowsAccepted, RefsKnown, NewWindows, NextRule, RuleHalf, RulePair;
    var x := doc.rules[i];
    var e := Get(v.rules, RuleKey(p)(x));
    AppliedAt(RuleRule(p), RuleKey(p), v.rules, doc.rules, |doc.rules|, RuleKey(p)(x));
    RuleIsThere(e, RuleRule(p)(e, x).value);
    RuleStable(p, e, RuleRule(p)(e, x), x, RuleRule(p)(e, x).value);
  }

  lemma RuleIsThere(e: Option<RuleView>, t: RuleView)
    ensures RuleHalf(e, Some(t), t)
  {
  }

  lemma PagesUnchanged(p: Platform, v: View, doc: Document, i: nat)
    requires Dependable(p) && Parsed(p, doc) && Accepts(p, v, doc) && i < |doc.pages|
    ensures PageUnchanged(p, Target(p, v, doc), doc.pages[i])
  {
    hide Dependable, Distinct, WindowsAccepted, RefsKnown, NewWindows, NextPage, PageHalf, SlugOf;
    var x := doc.pages[i];
    var e := Get(v.pages, PageKey(p)(x));
    AppliedAt(PageRule(p), PageKey(p), v.pages, doc.pages, |doc.pages|, PageKey(p)(x));
    PageIsThere(e, PageRule(p)(e, x).value);
    PageStable(p, e, PageRule(p)(e, x), x, PageRule(p)(e, x).value);
  }

  lemma PageIsThere(e: Option<PageView>, t: PageView)
    ensures PageHalf(e, Some(t), t)
  {
  }

  lemma RestUnchanged(p: Platform, v: View, doc: Document)
    requires Dependable(p) && Parsed(p, doc) && Accepts(p, v, doc)
    ensures forall i :: 0 <= i < |doc.rules| ==> RuleUnchanged(p, Target(p, v, doc), doc.rules[i])
    ensures forall i :: 0 <= i < |doc.windows| ==> WindowOf(p, doc.windows[i]) in Target(p, v, doc).windows
    ensures forall i :: 0 <= i < |doc.pages| ==> PageUnchanged(p, Target(p, v, doc), doc.pages[i])
  {
    hide Dependable, Parsed, Accepts, RuleUnchanged, PageUnchanged, WindowOf;
    forall i | 0 <= i < |doc.rules| ensures RuleUnchanged(p, Target(p, v, doc), doc.rules[i]) { RulesUnchanged(p, v, doc, i); }
    forall i | 0 <= i < |doc.windows| ensures WindowOf(p, doc.windows[i]) in Target(p, v, doc).windows {
      AskedIsThere(v.windows, Described(p, doc.windows), |doc.windows|, i);
    }
    forall i | 0 <= i < |doc.pages| ensures PageUnchanged(p, Target(p, v, doc), doc.pages[i]) { PagesUnchanged(p, v, doc, i); }
  }

  lemma {:induction false} AskedIsThere<T>(there: seq<T>, asked: seq<T>, n: nat, i: nat)
    requires i < n <= |asked|
    ensures asked[i] in there + Fresh(there, asked, n)
  {
    if i < n - 1 { AskedIsThere(there, asked, n - 1, i); }
  }

  /** After an import the same file plans every object as unchanged, but for the monitors it sends a
      setting of as empty text. */
  lemma NextPlanIsUnchanged(p: Platform, v: View, doc: Document)
    requires Dependable(p) && Parsed(p, doc) && Proper(p, v) && Accepts(p, v, doc)
    ensures var t := Target(p, v, doc);
            && (forall i :: 0 <= i < |doc.channels| ==> ChannelUnchanged(p, t, doc.channels[i]))
            && (forall i :: 0 <= i < |doc.monitors| ==>
                  var x := doc.monitors[i];
                  x.key in t.monitors && (MonitorUnchanged(p, t, x) <==> !SendsBlank(p.rules, x, t.monitors[x.key].monitor.typ)))
            && (forall i :: 0 <= i < |doc.rules| ==> RuleUnchanged(p, t, doc.rules[i]))
            && (forall i :: 0 <= i < |doc.windows| ==> WindowOf(p, doc.windows[i]) in t.windows)
            && (forall i :: 0 <= i < |doc.pages| ==> PageUnchanged(p, t, doc.pages[i]))
  {
    var t := Target(p, v, doc);
    forall i | 0 <= i < |doc.channels| ensures ChannelUnchanged(p, t, doc.channels[i]) { ChannelsUnchanged(p, v, doc, i); }
    forall i | 0 <= i < |doc.monitors|
      ensures var x := doc.monitors[i];
              x.key in t.monitors && (MonitorUnchanged(p, t, x) <==> !SendsBlank(p.rules, x, t.monitors[x.key].monitor.typ))
    {
      MonitorsUnchanged(p, v, doc, i);
    }
    RestUnchanged(p, v, doc);
  }
}
