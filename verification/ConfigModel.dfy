/** A configuration file, the objects it describes, and what an instance holds of them
    (internal/configfile/document.go, internal/api/config_import.go). */
module ConfigModel {
  import opened Prelude
  import opened MonitorRules
  import opened MonitorPatch

  type Key = string

  /** What an export writes in place of a credential. */
  const Placeholder := "<fill in after import>"

  // ---------------------------------------------------------------------------- objects

  datatype ChannelType = Webhook | Discord | Slack | Telegram | Email | Ntfy | Gotify | Sms | OtherChannel(word: string)
  type Config = map<string, string>
  datatype Channel = Channel(name: string, typ: ChannelType, config: Config, enabled: bool)
  datatype Quiet = Quiet(start: string, end: string, timezone: string, during: string)

  datatype Selection = ByMonitor | ByTag | OtherSelection(word: string)
  datatype Page = Page(
    title: string, description: string, timezone: string, language: string, accent: string,
    hideCredit: bool, indexable: bool, enabled: bool, selection: Selection, tagKey: string, tagValue: string)

  datatype TagPair = TagPair(key: string, value: string)

  // --------------------------------------------------------------------------- the file

  datatype QuietEdit = QuietAbsent | QuietNull | QuietWindow(window: Quiet) | QuietMalformed

  datatype ChannelEntry = ChannelEntry(
    key: Key, name: string, typ: Option<ChannelType>, enabled: Option<bool>, isDefault: bool,
    config: Option<Config>, quiet: QuietEdit)

  /** fields holds the settings a file writes as a PATCH does; its name, type, target, headers, body and
      channel ids are not used, the file has its own. */
  datatype MonitorEntry = MonitorEntry(
    key: Key, name: string, typ: Option<MonitorType>, target: string, fields: Patch,
    headers: Option<Headers>, body: Option<string>, channels: Option<seq<Key>>)

  datatype RuleEntry = RuleEntry(tagKey: string, tagValue: string, channels: Option<seq<Key>>, exclude: Option<seq<Key>>)

  datatype WindowEntry = WindowEntry(
    name: string, monitor: Key, tagKey: string, tagValue: string, starts: Option<int>, ends: Option<int>,
    timezone: string, weekdays: seq<int>, localTime: string, duration: int)

  datatype PageMonitor = PageMonitor(monitor: Key, name: string)

  datatype PageEntry = PageEntry(
    slug: string, title: string, description: Option<string>, timezone: Option<string>, language: Option<string>,
    accent: Option<string>, hideCredit: Option<bool>, indexable: Option<bool>, enabled: Option<bool>,
    selection: Option<Selection>, tagKey: string, tagValue: string, monitors: Option<seq<PageMonitor>>)

  datatype Document = Document(
    channels: seq<ChannelEntry>, monitors: seq<MonitorEntry>, rules: seq<RuleEntry>,
    windows: seq<WindowEntry>, pages: seq<PageEntry>)

  // ----------------------------------------------------------- the instance, without ids

  /** A time that was not given. */
  const NoTime := 0

  /** Something an object refers to: by its configuration key, or by its id while it has none. */
  datatype Ref = Keyed(key: Key) | Raw(id: int)

  datatype ChannelView = ChannelView(channel: Channel, quiet: Option<Quiet>)
  datatype MonitorView = MonitorView(monitor: Monitor, channels: set<Ref>)
  datatype RuleView = RuleView(channels: set<Ref>, excluded: set<Ref>)
  datatype Window = Window(
    name: string, monitor: Option<Ref>, tagKey: string, tagValue: string, starts: int, ends: int,
    timezone: string, weekdays: multiset<int>, localTime: string, duration: int)
  datatype Entry = Entry(monitor: Ref, name: string)
  datatype PageView = PageView(page: Page, entries: seq<Entry>)

  datatype View = View(
    channels: map<Key, ChannelView>, defaultChannel: Option<Ref>, monitors: map<Key, MonitorView>,
    rules: map<TagPair, RuleView>, windows: seq<Window>, pages: map<string, PageView>)

  function Refs(keys: seq<Key>): set<Ref> { set k | k in keys :: Keyed(k) }

  // ----------------------------------------------------------------------- the platform

  datatype RefusedAt = AtConfig(key: string) | AtOther(field: string)
  datatype Refusal = Refusal(at: RefusedAt, message: string)

  /** The settings a channel is saved with, which a rule added later does not refuse again. */
  datatype Saved = Saved(typ: ChannelType, config: Config)

  /** Checks of other packages, as values: text folding, clocks and zones, tag and slug patterns, and the
      rules for a channel's settings: shape and lengths for what validateChannel asks before and after the
      sender's rules, sender for those rules (notifier.ValidateConfig), keptHeaders for a webhook's with
      header lines held to their form only. */
  datatype Platform = Platform(
    rules: Rules,
    lower: string -> string,
    shape: (ChannelType, Config) -> Option<Refusal>,
    sender: (ChannelType, Config) -> Option<Refusal>,
    keptHeaders: Config -> Option<Refusal>,
    lengths: (ChannelType, Config) -> Option<Refusal>,
    publicKey: string -> bool,
    reachable: (ChannelType, Config) -> bool,
    quietOk: Quiet -> bool,
    tagKeyOk: string -> bool,
    windowOk: Window -> bool,
    slugOk: string -> bool,
    zoneOk: string -> bool,
    languageOk: string -> bool,
    accentOk: string -> bool)

  function ValueOf(c: Config, k: string): string { if k in c then c[k] else "" }

  /** The settings that have a stand-in (configfile.WithheldStandIn). */
  function StandInKeys(): set<string> { {"url", "bot_token", "numbers", "password", "auth_token", "topic", "token", "headers"} }

  /** What stands for a withheld setting while a file is judged. */
  function StandIn(t: ChannelType, k: string): string {
    if k == "headers" then TextHeader
    else if k == "url" then (if t == Discord then "https://discord.com/api/webhooks/0/withheld" else "https://withheld.invalid/")
    else if k == "bot_token" then "0:withheld"
    else if k == "numbers" then "+10000000000"
    else "withheld"
  }

  const TextHeader := "Content-Type: text/plain"

  /** What the importer relies on: a placeholder can stand where a header's value does, folding twice is
      folding once and leaves trimmed text trimmed, and the full header rules of a webhook include the form
      of its lines and accept the one line that stands for withheld ones. */
  ghost predicate Dependable(p: Platform) {
    && Lawful(p.rules)
    && (forall k, v :: p.rules.header(k, v) ==> p.rules.header(k, Placeholder))
    && (forall s :: p.lower(p.lower(s)) == p.lower(s)) && p.lower("en") == "en" && p.lower("") == ""
    && (forall s :: TrimSpaceFixed(s) ==> TrimSpaceFixed(p.lower(s)))
    && HeaderRules(p)
  }

  ghost predicate HeaderRules(p: Platform) {
    && (forall c :: p.sender(Webhook, c).None? ==> p.keptHeaders(c).None?)
    && (forall c :: ValueOf(c, "headers") == TextHeader && p.keptHeaders(c).None? ==> p.sender(Webhook, c).None?)
  }
}
