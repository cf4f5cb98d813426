/** The steps of a plan (importPlan, internal/api/config_import.go and config_status_pages.go) and what
    each of them has to make. */
module ConfigSteps {
  import opened Prelude
  import opened MonitorRules
  import opened KeyedMerge
  import opened ConfigModel
  import opened ConfigChannels
  import opened ConfigMonitors
  import opened ConfigRules
  import opened ConfigPages
  import opened ConfigStore

  /** What the report of a plan says of an object. */
  datatype Action = Create | Update | Unchanged

  function ActionOf(found: bool, writes: bool): Action { if !found then Create else if writes then Update else Unchanged }

  /** id is None for a channel the import creates. */
  datatype ChannelStep = ChannelStep(
    key: Key, id: Option<Id>, channel: Channel, write: bool, quiet: Option<Quiet>, clearQuiet: bool, makeDefault: bool)
  {
    function Action(): Action { ActionOf(id.Some?, write || quiet.Some? || clearQuiet || makeDefault) }
  }

  /** channels None leaves the monitor's channels alone. */
  datatype MonitorStep = MonitorStep(key: Key, id: Option<Id>, monitor: Monitor, write: bool, channels: Option<seq<Key>>)
  {
    function Action(): Action { ActionOf(id.Some?, write || channels.Some?) }
  }

  /** excluded holds the rule's exclusions as the plan found them. */
  datatype RuleStep = RuleStep(
    tag: TagPair, found: bool, channels: Option<seq<Key>>, write: bool, exclude: Option<seq<Key>>, excluded: set<Id>)
  {
    function Action(): Action { ActionOf(found, write || channels.Some? || exclude.Some?) }
  }

  /** monitor is a key, resolved when the window is created. */
  datatype WindowStep = WindowStep(window: Window, monitor: Key)

  datatype PageStep = PageStep(slug: string, found: bool, page: Page, write: bool, monitors: Option<seq<PageMonitor>>)
  {
    function Action(): Action { ActionOf(found, write || monitors.Some?) }
  }

  datatype Plan = Plan(
    channels: seq<ChannelStep>, monitors: seq<MonitorStep>, rules: seq<RuleStep>, windows: seq<WindowStep>, pages: seq<PageStep>)

  // What a step does to the object under its key: e as it is, t as it will be.

  ghost predicate ChannelMakes(p: Platform, st: ChannelStep, e: Option<ChannelView>, t: ChannelView) {
    && st.id.Some? == e.Some? && st.channel == t.channel && st.write == (ChannelOf(e) != Some(t.channel))
    && !(st.quiet.Some? && st.clearQuiet)
    && (st.quiet.Some? ==> t.quiet == st.quiet && NormalQuiet(p, st.quiet.value) == st.quiet)
    && (st.clearQuiet ==> t.quiet.None?)
    && (st.quiet.None? && !st.clearQuiet ==> t.quiet == QuietOf(e))
  }

  ghost predicate MonitorMakes(st: MonitorStep, e: Option<MonitorView>, t: MonitorView) {
    && st.id.Some? == e.Some? && (e.None? ==> st.write)
    && t.monitor == (if st.write then Undated(Stored(st.monitor)) else e.value.monitor)
    && t.channels == (if st.channels.Some? then Refs(st.channels.value) else ConfigMonitors.AttachedTo(e))
  }

  ghost predicate RuleMakes(st: RuleStep, e: Option<RuleView>, t: RuleView) {
    && st.found == e.Some? && (st.write || e.Some?) && (st.write ==> st.channels.Some?)
    && t.channels == (if st.write then Refs(st.channels.value) else e.value.channels)
    && t.excluded == (if st.exclude.Some? then Refs(st.exclude.value) else ExcludedBy(e))
  }

  ghost predicate PageMakes(p: Platform, st: PageStep, e: Option<PageView>, t: PageView) {
    && st.found == e.Some? && st.page == t.page && st.write == (PageOf(e) != Some(t.page))
    && t.entries == (if st.monitors.Some? then EntriesOf(st.monitors.value) else EntriesIn(e))
    && (st.monitors.Some? ==> EntriesOk(st.monitors.value, EntriesIn(e)))
    && NormalPage(p, t.page, PageOf(e)) == Some(t.page)
  }

  // A step writes only what differs. ChannelMakes and PageMakes say so of the row already.

  ghost predicate ChannelSpares(st: ChannelStep, e: Option<ChannelView>, t: ChannelView) {
    st.quiet.Some? || st.clearQuiet ==> t.quiet != QuietOf(e)
  }

  /** planned is the monitor the entry describes. */
  ghost predicate MonitorSpares(r: Rules, st: MonitorStep, e: Option<MonitorView>, t: MonitorView, planned: Option<Monitor>) {
    && planned == Some(Undated(st.monitor)) && st.write == (e.None? || Changed(r, e.value.monitor, Undated(st.monitor)))
    && (e.Some? && st.channels.Some? ==> t.channels != e.value.channels)
  }

  ghost predicate RuleSpares(st: RuleStep, e: Option<RuleView>, t: RuleView) {
    && (st.channels.Some? ==> st.write)
    && (e.Some? && st.write ==> t.channels != e.value.channels) && (e.Some? && st.exclude.Some? ==> t.excluded != e.value.excluded)
  }

  ghost predicate PageSpares(st: PageStep, e: Option<PageView>, t: PageView) {
    e.Some? && st.monitors.Some? ==> t.entries != e.value.entries
  }
}
