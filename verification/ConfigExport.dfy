/** An instance's own export, imported back into it (internal/api/config_export.go,
    exportStatusPages in config_status_pages.go). */
module ConfigExport {
  import opened Prelude
  import opened MonitorRules
  import opened MonitorInvariant
  import opened KeyedMerge
  import opened ConfigModel
  import opened ConfigChannels
  import opened ConfigMonitors
  import opened ConfigOwnMonitor
  import opened ConfigRules
  import opened ConfigPages
  import opened ConfigSpec
  import S = ConfigStore

  // ------------------------------------------------------------------------- channels

  /** A value that is not public leaves as a placeholder; an empty one is no secret. */
  function Masked(p: Platform, c: Config): Config {
    map k | k in c :: if p.publicKey(k) || c[k] == "" then c[k] else Placeholder
  }

  /** The settings a file has to say are still to be filled in. */
  function Unfilled(p: Platform, c: Channel): set<string> { StillMissing(p, c, Masked(p, c.config)) }

  function WithUnfilled(c: Config, ks: set<string>): Config {
    map k | k in c.Keys + ks :: if k in ks then Placeholder else c[k]
  }

  /** exportChannelConfig. */
  function ExportedConfig(p: Platform, c: Channel): Option<Config> {
    var out := WithUnfilled(Masked(p, c.config), Unfilled(p, c));
    if out == map[] then None else Some(out)
  }

  method ExportChannelConfig(p: Platform, c: Channel) returns (config: Option<Config>)
    ensures config == ExportedConfig(p, c)
  {
    var out: Config, left := map[], c.config.Keys;
    while left != {}
      invariant forall k :: k in left ==> k in c.config
      invariant forall k :: k in out <==> k in c.config && k !in left
      invariant forall k :: k in out ==> out[k] == if p.publicKey(k) || c.config[k] == "" then c.config[k] else Placeholder
      decreases |left|
    {
      var k :| k in left;
      out := out[k := if p.publicKey(k) || c.config[k] == "" then c.config[k] else Placeholder];
      left := left - {k};
    }
    assert out == Masked(p, c.config);
    var unfilled := AskerFor(p, c).AddAll(out);
    out := WithUnfilled(out, unfilled);
    return if out == map[] then None else Some(out);
  }

  function ExportedChannel(p: Platform, k: Key, c: ChannelView, isDefault: bool): ChannelEntry {
    ChannelEntry(k, c.channel.name, Some(c.channel.typ), Some(c.channel.enabled), isDefault, ExportedConfig(p, c.channel),
                 if c.quiet.Some? then QuietWindow(c.quiet.value) else QuietNull)
  }

  /** Every placeholder an export writes resolves to exactly the stored value, and what it says is still
      to be filled in is what is missing. */
  lemma OwnPlaceholders(p: Platform, c: Channel, out: Config)
    requires out == WithUnfilled(Masked(p, c.config), Unfilled(p, c))
    ensures Resolved(Some(c), c.typ, out) == c.config && Missing(Some(c), c.typ, out) == Unfilled(p, c)
  {
    hide StillMissing, Held, Filled, Withheld, Masked, WithUnfilled, Unfilled, Moved, IsHeld;
    var held := Held(Some(c), c.typ, out);
    OwnAreHeld(p, c, out);
    assert !Moved(c.typ, c.config, c.typ, c.config) by { StaysPut(c); }
  }

  lemma StaysPut(c: Channel)
    ensures !Moved(c.typ, c.config, c.typ, c.config)
  {
    hide DestinationKeys, DestinationValue;
  }

  lemma OwnAreHeld(p: Platform, c: Channel, out: Config)
    requires out == WithUnfilled(Masked(p, c.config), Unfilled(p, c))
    ensures var held := Held(Some(c), c.typ, out);
      Filled(Some(c), out, held) == c.config && Withheld(out) - held == Unfilled(p, c)
  {
    hide StillMissing, Unfilled;
    var held := Held(Some(c), c.typ, out);
    UnfilledAreNew(p, c);
    forall k | k in out ensures (k in held) == (out[k] == Placeholder && k in c.config) {
      if k in c.config { assert out[k] == Masked(p, c.config)[k]; }
    }
  }

  lemma UnfilledAreNew(p: Platform, c: Channel)
    ensures Unfilled(p, c) !! c.config.Keys
  {
    assert Masked(p, c.config).Keys == c.config.Keys;
  }

  /** The channel meets the current rules, a stand-in in place of each setting still to be filled in. */
  ghost predicate ChannelMeetsRules(p: Platform, c: Channel) {
    var judged := c.config + StandIns(c.typ, Unfilled(p, c));
    Settings(p, c.typ, judged, Some(Saved(c.typ, c.config))).None? && (Unfilled(p, c) == {} ==> p.reachable(c.typ, judged))
  }

  lemma OwnSettings(p: Platform, c: Channel, x: ChannelEntry)
    requires x.typ == Some(c.typ) && x.config == ExportedConfig(p, c)
    ensures NextConfig(Some(c), x) == c.config && NextMissing(p, Some(c), x) == Unfilled(p, c)
  {
    hide StillMissing;
    var out := WithUnfilled(Masked(p, c.config), Unfilled(p, c));
    if x.config.Some? {
      OwnPlaceholders(p, c, out);
    } else {
      assert c.config.Keys <= out.Keys && Unfilled(p, c) <= out.Keys;
      assert c.config == map[] == Masked(p, c.config);
    }
  }

  /** A channel's own export plans it as unchanged exactly when it meets the current rules and is switched
      off while a setting is still to be filled in. */
  lemma OwnChannelUnchanged(p: Platform, c: Channel, x: ChannelEntry)
    requires Named(Some(c)) && x.name == c.name && x.typ == Some(c.typ) && x.enabled == Some(c.enabled)
    requires x.config == ExportedConfig(p, c)
    ensures NextChannel(p, Some(c), x) == Some(c) <==> ChannelMeetsRules(p, c) && (Unfilled(p, c) == {} || !c.enabled)
  {
    hide Unfilled, ExportedConfig, NextConfig, NextMissing;
    OwnSettings(p, c, x);
  }

  // ------------------------------------------------------------------------- the document

  function ExportedWindow(w: Window): WindowEntry {
    WindowEntry(w.name, if w.monitor.Some? && w.monitor.value.Keyed? then w.monitor.value.key else "", w.tagKey, w.tagValue,
                if w.starts == NoTime then None else Some(w.starts), if w.ends == NoTime then None else Some(w.ends),
                w.timezone, [], w.localTime, w.duration)
  }

  function ExportedPage(slug: string, v: PageView, list: seq<PageMonitor>): PageEntry {
    PageEntry(slug, v.page.title, Some(v.page.description), Some(v.page.timezone), Some(v.page.language), Some(v.page.accent),
              Some(v.page.hideCredit), Some(v.page.indexable), Some(v.page.enabled), Some(v.page.selection),
              v.page.tagKey, v.page.tagValue, Some(list))
  }

  ghost predicate WritesChannel(p: Platform, v: View, x: ChannelEntry) {
    x.key in v.channels && x == ExportedChannel(p, x.key, v.channels[x.key], v.defaultChannel == Some(Keyed(x.key)))
  }

  ghost predicate WritesMonitor(p: Platform, v: View, x: MonitorEntry) {
    && x.key in v.monitors && x.channels.Some? && Refs(x.channels.value) == v.monitors[x.key].channels
    && x == OwnEntry(p.rules, v.monitors[x.key].monitor, x.key, x.channels)
  }

  ghost predicate WritesRule(v: View, x: RuleEntry) {
    && TagPair(x.tagKey, x.tagValue) in v.rules && x.channels.Some? && x.exclude.Some?
    && RuleView(Refs(x.channels.value), Refs(x.exclude.value)) == v.rules[TagPair(x.tagKey, x.tagValue)]
  }

  /** list names the monitors of a page's entries, in order, under the names they are shown by. */
  ghost predicate WrittenFrom(list: seq<PageMonitor>, entries: seq<Entry>) {
    |list| == |entries| && forall i :: 0 <= i < |list| ==> entries[i] == Entry(Keyed(list[i].monitor), list[i].name)
  }

  ghost predicate WritesPage(v: View, x: PageEntry) {
    && x.slug in v.pages && x.monitors.Some? && WrittenFrom(x.monitors.value, v.pages[x.slug].entries)
    && x == ExportedPage(x.slug, v.pages[x.slug], x.monitors.value)
  }

  function WrittenPair(): RuleEntry -> TagPair { (x: RuleEntry) => TagPair(x.tagKey, x.tagValue) }
  function WrittenSlug(): PageEntry -> string { (x: PageEntry) => x.slug }

  /** doc holds keyed objects of v, each once and as an export writes it, and any of its windows. */
  ghost predicate IsExport(p: Platform, v: View, doc: Document) {
    && Distinct(ChannelKey(), doc.channels) && Distinct(MonitorKey(), doc.monitors)
    && Distinct(WrittenPair(), doc.rules) && Distinct(WrittenSlug(), doc.pages)
    && (forall i :: 0 <= i < |doc.channels| ==> WritesChannel(p, v, doc.channels[i]))
    && (forall i :: 0 <= i < |doc.monitors| ==> WritesMonitor(p, v, doc.monitors[i]))
    && (forall i :: 0 <= i < |doc.rules| ==> WritesRule(v, doc.rules[i]))
    && (forall i :: 0 <= i < |doc.windows| ==> WritesOneOf(doc.windows[i], v.windows))
    && (forall i :: 0 <= i < |doc.pages| ==> WritesPage(v, doc.pages[i]))
  }

  /** exportMaintenance: x writes w. */
  ghost predicate Writes(x: WindowEntry, w: Window) {
    && x == ExportedWindow(w).(weekdays := x.weekdays) && multiset(x.weekdays) == w.weekdays
    && (w.monitor.Some? ==> w.monitor.value.Keyed? && w.monitor.value.key != "")
  }

  ghost predicate WritesOneOf(x: WindowEntry, ws: seq<Window>) { exists w :: w in ws && Writes(x, w) }

  // --------------------------------------------------------- what the instance has to meet

  ghost predicate RuleMeetsRules(p: Platform, t: TagPair) { TagPairOf(p, t.key, t.value) == t && TagOk(p, t, true) }

  /** A stored window, judged with a stand-in for a name or tag saved before control characters were
      refused. */
  ghost predicate WindowMeetsRules(p: Platform, w: Window) {
    && TrimSpaceFixed(w.name) && TrimSpaceFixed(w.timezone) && TagPairOf(p, w.tagKey, w.tagValue) == TagPair(w.tagKey, w.tagValue)
    && Storable(p, w.(name := if HasControlCharacter(w.name) then "-" else w.name,
                      tagValue := if HasControlCharacter(w.tagValue) then "-" else w.tagValue))
  }

  ghost predicate PageMeetsRules(p: Platform, slug: string, v: PageView) {
    && SlugOk(p, slug) && p.lower(TrimSpace(slug)) == slug
    && NormalPage(p, v.page, Some(v.page)) == Some(v.page) && |v.entries| <= MaxEntries
    && (forall i, j :: 0 <= i < j < |v.entries| ==> v.entries[i].monitor != v.entries[j].monitor)
    && (forall e :: e in v.entries ==> DisplayNameOk(e.name, true) && TrimSpaceFixed(e.name))
  }

  /** The instance meets the current rules and every reference it holds is to a keyed object. */
  ghost predicate MeetsRules(p: Platform, v: View) {
    && (forall k :: k in v.channels ==>
          && Named(Some(v.channels[k].channel)) && ChannelMeetsRules(p, v.channels[k].channel)
          && (v.channels[k].quiet.Some? ==> NormalQuiet(p, v.channels[k].quiet.value) == v.channels[k].quiet))
    && (forall k :: k in v.monitors ==> Sound(p.rules, v.monitors[k].monitor) && Undated(v.monitors[k].monitor) == v.monitors[k].monitor)
    && (forall t :: t in v.rules ==> RuleMeetsRules(p, t))
    && (forall w :: w in v.windows ==> WindowMeetsRules(p, w))
    && (forall s :: s in v.pages ==> PageMeetsRules(p, s, v.pages[s]))
  }

  ghost predicate RefsOnInstance(refs: set<Ref>, keys: set<Key>) { forall r :: r in refs ==> r.Keyed? && r.key in keys }

  ghost predicate AllKeyed(v: View) {
    && (forall k :: k in v.monitors ==> RefsOnInstance(v.monitors[k].channels, v.channels.Keys))
    && (forall t :: t in v.rules ==> RefsOnInstance(v.rules[t].channels, v.channels.Keys) && RefsOnInstance(v.rules[t].excluded, v.monitors.Keys))
    && (forall w :: w in v.windows ==> w.monitor.Some? ==> w.monitor.value.Keyed? && w.monitor.value.key in v.monitors)
    && (forall s, e :: s in v.pages && e in v.pages[s].entries ==> e.monitor.Keyed? && e.monitor.key in v.monitors)
  }

  /** Every channel with a setting still to be filled in is switched off. */
  ghost predicate UnfilledAreOff(p: Platform, v: View) {
    forall k :: k in v.channels ==> Unfilled(p, v.channels[k].channel) == {} || !v.channels[k].channel.enabled
  }

  // ------------------------------------------------------- its own export changes nothing

  lemma OwnChannel(p: Platform, c: ChannelView, x: ChannelEntry, isDefault: bool)
    requires Named(Some(c.channel)) && ChannelMeetsRules(p, c.channel) && x == ExportedChannel(p, x.key, c, isDefault)
    requires c.quiet.Some? ==> NormalQuiet(p, c.quiet.value) == c.quiet
    ensures NextChannelView(p, Some(c), x).Some?
    ensures NextChannelView(p, Some(c), x) == Some(c) <==> Unfilled(p, c.channel) == {} || !c.channel.enabled
  {
    hide Unfilled, ExportedConfig, NextConfig, NextMissing, NormalQuiet;
    OwnSettings(p, c.channel, x);
    OwnChannelUnchanged(p, c.channel, x);
  }

  lemma OwnMonitor(p: Platform, v: View, x: MonitorEntry)
    requires Dependable(p) && MeetsRules(p, v) && x.key in v.monitors && x.channels.Some?
    requires Refs(x.channels.value) == v.monitors[x.key].channels
    requires x == OwnEntry(p.rules, v.monitors[x.key].monitor, x.key, x.channels)
    ensures NextMonitorView(p, Some(v.monitors[x.key]), x).Some? && MonitorUnchanged(p, v, x)
  {
    hide Exported, OwnEntry, Planned, Changed, Sound;
    var m := v.monitors[x.key].monitor;
    OwnMonitorUnchanged(p, m, x.key, x.channels, 0);
  }

  lemma OwnRule(p: Platform, v: View, x: RuleEntry)
    requires MeetsRules(p, v) && TagPair(x.tagKey, x.tagValue) in v.rules && x.channels.Some? && x.exclude.Some?
    requires RuleView(Refs(x.channels.value), Refs(x.exclude.value)) == v.rules[TagPair(x.tagKey, x.tagValue)]
    ensures RulePair(p, x) == TagPair(x.tagKey, x.tagValue) && RuleUnchanged(p, v, x)
  {
    assert RuleMeetsRules(p, TagPair(x.tagKey, x.tagValue));
  }

  lemma OwnWindow(p: Platform, ws: seq<Window>, w: Window, x: WindowEntry)
    requires w in ws && WindowMeetsRules(p, w) && Writes(x, w)
    ensures WindowOf(p, x) == w && NextWindow(p, ws, x) == Some(w)
  {
    assert SavedName(ws, w.name) == HasControlCharacter(w.name);
    assert SavedTag(ws, TagPair(w.tagKey, w.tagValue)) == HasControlCharacter(w.tagValue);
  }

  lemma OwnPage(p: Platform, v: View, x: PageEntry)
    requires MeetsRules(p, v) && x.slug in v.pages && x.monitors.Some?
    requires WrittenFrom(x.monitors.value, v.pages[x.slug].entries) && x == ExportedPage(x.slug, v.pages[x.slug], x.monitors.value)
    ensures SlugOf(p, x) == x.slug && PageUnchanged(p, v, x)
  {
    var e, list := v.pages[x.slug], x.monitors.value;
    assert PageMeetsRules(p, x.slug, e);
    NamesAreTrimmed(list, e.entries);
    assert e.page.title != "" && TrimSpace(e.page.title) == e.page.title;
    assert Overlay(Some(e.page), x) == e.page;
    OwnEntries(list, e.entries);
  }

  /** Names that are trimmed already are read back as they were written. */
  lemma NamesAreTrimmed(list: seq<PageMonitor>, entries: seq<Entry>)
    requires WrittenFrom(list, entries) && forall e :: e in entries ==> TrimSpaceFixed(e.name)
    ensures EntriesOf(list) == entries
  {
    hide TrimSpaceFixed;
    forall i | 0 <= i < |list| ensures TrimSpace(list[i].name) == list[i].name {
      assert entries[i] in entries;
      FixedIsTrimmed(list[i].name);
    }
  }

  lemma FixedIsTrimmed(s: string)
    requires TrimSpaceFixed(s)
    ensures TrimSpace(s) == s
  {
  }

  lemma OwnEntries(list: seq<PageMonitor>, entries: seq<Entry>)
    requires EntriesOf(list) == entries && |entries| <= MaxEntries
    requires forall i, j :: 0 <= i < j < |entries| ==> entries[i].monitor != entries[j].monitor
    requires forall e :: e in entries ==> DisplayNameOk(e.name, true)
    ensures EntriesOk(list, entries)
  {
    forall i, j | 0 <= i < j < |list| ensures list[i].monitor != list[j].monitor {
      assert entries[i].monitor == Keyed(list[i].monitor) && entries[j].monitor == Keyed(list[j].monitor);
    }
    forall i | 0 <= i < |list| ensures DisplayNameOk(TrimSpace(list[i].name), EntriesOf(list)[i] in entries) {
      assert entries[i] in entries && entries[i].name == TrimSpace(list[i].name);
    }
  }

  lemma OwnRefs(keys: seq<Key>, refs: set<Ref>, known: set<Key>)
    requires Refs(keys) == refs && RefsOnInstance(refs, known)
    ensures forall k :: k in keys ==> k in known
  {
    forall k | k in keys ensures k in known { assert Keyed(k) in refs; }
  }

  lemma OwnReferences(p: Platform, v: View, doc: Document)
    requires IsExport(p, v, doc) && AllKeyed(v)
    ensures RefsKnown(v, doc)
  {
    hide OwnEntry, ExportedPage, ExportedChannel, ChannelKeys, MonitorKeys, RulePair;
    forall i | 0 <= i < |doc.monitors| ensures Known(doc.monitors[i].channels, v.channels.Keys) {
      OwnRefs(doc.monitors[i].channels.value, v.monitors[doc.monitors[i].key].channels, v.channels.Keys);
    }
    forall i | 0 <= i < |doc.rules|
      ensures Known(doc.rules[i].channels, v.channels.Keys) && Known(doc.rules[i].exclude, v.monitors.Keys)
    {
      var t := TagPair(doc.rules[i].tagKey, doc.rules[i].tagValue);
      OwnRefs(doc.rules[i].channels.value, v.rules[t].channels, v.channels.Keys);
      OwnRefs(doc.rules[i].exclude.value, v.rules[t].excluded, v.monitors.Keys);
    }
    forall i, m | 0 <= i < |doc.pages| && m in doc.pages[i].monitors.value ensures m.monitor in v.monitors {
      OwnPageRefs(doc.pages[i].monitors.value, v.pages[doc.pages[i].slug].entries, m);
    }
  }

  lemma OwnPageRefs(list: seq<PageMonitor>, entries: seq<Entry>, m: PageMonitor)
    requires WrittenFrom(list, entries) && m in list
    ensures exists e :: e in entries && e.monitor == Keyed(m.monitor)
  {
    var i :| 0 <= i < |list| && list[i] == m;
    assert entries[i] in entries && entries[i].monitor == Keyed(m.monitor);
  }

  lemma OwnWindows(p: Platform, v: View, doc: Document)
    requires MeetsRules(p, v) && IsExport(p, v, doc)
    ensures WindowsAccepted(p, v.windows, doc.windows)
    ensures forall i :: 0 <= i < |doc.windows| ==> WindowOf(p, doc.windows[i]) in v.windows
  {
    hide Storable, OwnEntry, ExportedPage, ExportedChannel;
    forall i | 0 <= i < |doc.windows|
      ensures NextWindow(p, v.windows, doc.windows[i]).Some? && WindowOf(p, doc.windows[i]) in v.windows
    {
      assert WritesOneOf(doc.windows[i], v.windows);
      var w :| w in v.windows && Writes(doc.windows[i], w);
      OwnWindow(p, v.windows, w, doc.windows[i]);
    }
    FreshIsNew(v.windows, Described(p, doc.windows), |doc.windows|);
  }

  /** The pairs and slugs of an instance that meets the rules are read as they were written. */
  lemma OwnKeys(p: Platform, v: View, doc: Document)
    requires MeetsRules(p, v) && IsExport(p, v, doc)
    ensures Distinct(RuleKey(p), doc.rules) && Distinct(PageKey(p), doc.pages)
  {
    hide NextMonitorView, OwnEntry, ExportedPage, ExportedChannel, WritesMonitor, WritesChannel, WritesOneOf, NormalPage, SlugOk, DisplayNameOk;
    forall i | 0 <= i < |doc.rules| ensures RuleKey(p)(doc.rules[i]) == WrittenPair()(doc.rules[i]) {
      assert RuleMeetsRules(p, TagPair(doc.rules[i].tagKey, doc.rules[i].tagValue));
    }
    forall i | 0 <= i < |doc.pages| ensures PageKey(p)(doc.pages[i]) == WrittenSlug()(doc.pages[i]) {
      assert PageMeetsRules(p, doc.pages[i].slug, v.pages[doc.pages[i].slug]);
    }
  }

  /** The channels doc lists that wait for a setting are switched off. */
  ghost predicate ListedUnfilledAreOff(p: Platform, v: View, doc: Document)
    requires IsExport(p, v, doc)
  {
    forall i :: 0 <= i < |doc.channels| ==>
      Unfilled(p, v.channels[doc.channels[i].key].channel) == {} || !v.channels[doc.channels[i].key].channel.enabled
  }

  lemma OwnSections(p: Platform, v: View, doc: Document)
    requires Dependable(p) && MeetsRules(p, v) && IsExport(p, v, doc)
    ensures Accepted(MonitorRule(p), MonitorKey(), v.monitors, doc.monitors)
    ensures Accepted(RuleRule(p), RuleKey(p), v.rules, doc.rules) && Accepted(PageRule(p), PageKey(p), v.pages, doc.pages)
    ensures forall i :: 0 <= i < |doc.monitors| ==> MonitorUnchanged(p, v, doc.monitors[i])
    ensures forall i :: 0 <= i < |doc.rules| ==> RuleUnchanged(p, v, doc.rules[i])
    ensures forall i :: 0 <= i < |doc.pages| ==> PageUnchanged(p, v, doc.pages[i])
  {
    hide MeetsRules, NextMonitorView, OwnEntry, ExportedPage, ExportedChannel, MonitorUnchanged, Dependable;
    forall i | 0 <= i < |doc.monitors|
      ensures MonitorRule(p)(Get(v.monitors, MonitorKey()(doc.monitors[i])), doc.monitors[i]).Some? && MonitorUnchanged(p, v, doc.monitors[i])
    {
      OwnMonitor(p, v, doc.monitors[i]);
    }
    forall i | 0 <= i < |doc.rules|
      ensures RuleRule(p)(Get(v.rules, RuleKey(p)(doc.rules[i])), doc.rules[i]).Some? && RuleUnchanged(p, v, doc.rules[i])
    {
      OwnRule(p, v, doc.rules[i]);
    }
    forall i | 0 <= i < |doc.pages|
      ensures PageRule(p)(Get(v.pages, PageKey(p)(doc.pages[i])), doc.pages[i]).Some? && PageUnchanged(p, v, doc.pages[i])
    {
      OwnPage(p, v, doc.pages[i]);
    }
  }

  lemma OwnChannels(p: Platform, v: View, doc: Document)
    requires MeetsRules(p, v) && IsExport(p, v, doc)
    ensures Accepted(ChannelRule(p), ChannelKey(), v.channels, doc.channels)
    ensures (forall i :: 0 <= i < |doc.channels| ==> ChannelUnchanged(p, v, doc.channels[i])) <==> ListedUnfilledAreOff(p, v, doc)
  {
    hide NextChannelView, OwnEntry, ExportedPage, Unfilled;
    forall i | 0 <= i < |doc.channels|
      ensures ChannelRule(p)(Get(v.channels, ChannelKey()(doc.channels[i])), doc.channels[i]).Some?
      ensures ChannelUnchanged(p, v, doc.channels[i]) <==>
        Unfilled(p, v.channels[doc.channels[i].key].channel) == {} || !v.channels[doc.channels[i].key].channel.enabled
    {
      var x := doc.channels[i];
      OwnChannel(p, v.channels[x.key], x, v.defaultChannel == Some(Keyed(x.key)));
    }
  }

  /** An instance that meets the current rules accepts its own export, and plans all of it as unchanged
      exactly when every channel with a setting still to be filled in is switched off. */
  lemma OwnExportIsUnchanged(p: Platform, v: View, doc: Document)
    requires Dependable(p) && MeetsRules(p, v) && AllKeyed(v) && IsExport(p, v, doc)
    ensures Accepts(p, v, doc)
    ensures PlansAsUnchanged(p, v, doc) <==> ListedUnfilledAreOff(p, v, doc)
  {
    OwnReferences(p, v, doc);
    OwnKeys(p, v, doc);
    OwnChannels(p, v, doc);
    OwnSections(p, v, doc);
    OwnWindows(p, v, doc);
    hide MeetsRules, AllKeyed, RefsKnown, Accepted, WindowsAccepted, ChannelUnchanged, MonitorUnchanged, RuleUnchanged, PageUnchanged, Dependable,
      ListedUnfilledAreOff;
  }
}
