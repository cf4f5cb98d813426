/** The channel section of an import: placeholders, what they may resolve to, and the settings a channel
    is still waiting for (planChannel, internal/api/config_import.go; stillWithheld, config_export.go;
    channel_destination.go; internal/configfile/withheld.go). */
module ConfigChannels {
  import opened Prelude
  import opened MonitorRules
  import opened ConfigModel
  import opened KeyedMerge

  // ------------------------------------------------------------------------- destination

  function DestinationKeys(t: ChannelType): seq<string> {
    match t
    case Webhook => ["url"] case Discord => ["url"] case Slack => ["url"] case Gotify => ["url"] case Ntfy => ["url"]
    case Email => ["host", "port"]
    case Sms => ["provider", "url"]
    case _ => []
  }

  function DestinationDefault(t: ChannelType, k: string): string {
    if t == Ntfy && k == "url" then "https://ntfy.sh"
    else if t == Email && k == "port" then "587"
    else ""
  }

  function DestinationValue(t: ChannelType, c: Config, k: string): string {
    var v := TrimSpace(ValueOf(c, k));
    if v == "" then DestinationDefault(t, k) else v
  }

  /** The channel would send its credentials somewhere else. */
  predicate Moved(fromType: ChannelType, from: Config, toType: ChannelType, to: Config) {
    fromType != toType
    || exists k :: k in DestinationKeys(toType) && DestinationValue(fromType, from, k) != DestinationValue(toType, to, k)
  }

  /** destinationChange, which also names the first setting that moved. */
  method DestinationChange(fromType: ChannelType, from: Config, toType: ChannelType, to: Config) returns (moved: Option<string>)
    ensures moved.Some? <==> Moved(fromType, from, toType, to)
    ensures moved.Some? && fromType == toType ==>
      moved.value in DestinationKeys(toType)
      && DestinationValue(fromType, from, moved.value) != DestinationValue(toType, to, moved.value)
  {
    hide DestinationKeys, DestinationValue;
    if fromType != toType { return Some("the type"); }
    var keys, i := DestinationKeys(toType), 0;
    while i < |keys|
      invariant 0 <= i <= |keys|
      invariant forall j :: 0 <= j < i ==> DestinationValue(fromType, from, keys[j]) == DestinationValue(toType, to, keys[j])
    {
      if DestinationValue(fromType, from, keys[i]) != DestinationValue(toType, to, keys[i]) { return Some(keys[i]); }
      i := i + 1;
    }
    return None;
  }

  predicate SameCountryCode(from: Config, to: Config) {
    TrimSpace(ValueOf(from, "country_code")) == TrimSpace(ValueOf(to, "country_code"))
  }

  // ------------------------------------------------------------------------ placeholders

  function Literals(c: Config): Config { map k | k in c && c[k] != Placeholder :: c[k] }

  function Withheld(c: Config): set<string> { set k | k in c && c[k] == Placeholder }

  /** A placeholder the instance holds a value for, in a channel of the same type. */
  predicate IsHeld(e: Option<Channel>, t: ChannelType, c: Config, k: string) {
    k in c && c[k] == Placeholder && e.Some? && e.value.typ == t && ValueOf(e.value.config, k) != ""
  }

  function Held(e: Option<Channel>, t: ChannelType, c: Config): set<string> { set k | k in c && IsHeld(e, t, c, k) }

  function HeldValue(e: Option<Channel>, k: string): string { if e.Some? then ValueOf(e.value.config, k) else "" }

  function Filled(e: Option<Channel>, c: Config, held: set<string>): Config {
    map k | k in c && (c[k] != Placeholder || k in held) :: if c[k] != Placeholder then c[k] else HeldValue(e, k)
  }

  /** The held values a file may keep: none when it sends the channel somewhere else, and no phone
      numbers when it changes the country code they are read under. */
  function Kept(e: Option<Channel>, t: ChannelType, c: Config): set<string> {
    if e.None? then {} else
    var held := Held(e, t, c);
    var filled := Filled(e, c, held);
    if Moved(e.value.typ, e.value.config, t, filled) then {}
    else if "numbers" in held && !SameCountryCode(e.value.config, filled) then held - {"numbers"}
    else held
  }

  function Resolved(e: Option<Channel>, t: ChannelType, c: Config): Config { Filled(e, c, Kept(e, t, c)) }

  function Missing(e: Option<Channel>, t: ChannelType, c: Config): set<string> { Withheld(c) - Kept(e, t, c) }

  lemma HeldIsWithheld(e: Option<Channel>, t: ChannelType, c: Config)
    ensures Held(e, t, c) <= Withheld(c)
    ensures e.None? ==> Held(e, t, c) == {}
  {
  }

  /** Taking back held values leaves the settings as if those had never been held. */
  lemma FilledLess(e: Option<Channel>, c: Config, held: set<string>, drop: set<string>, missing: set<string>)
    requires drop <= held <= Withheld(c) && missing == Withheld(c) - held
    ensures Filled(e, c, held) - drop == Filled(e, c, held - drop)
    ensures missing + drop == Withheld(c) - (held - drop) && held - held == {}
  {
  }

  /** The loops of planChannel: over the file's settings in any order, then over the values held. */
  method Resolve(e: Option<Channel>, t: ChannelType, c: Config) returns (cfg: Config, missing: set<string>)
    ensures cfg == Resolved(e, t, c) && missing == Missing(e, t, c)
  {
    hide Held, Filled, SameCountryCode, Withheld;
    HeldIsWithheld(e, t, c);
    var held;
    cfg, held, missing := FillAll(e, t, c);
    if e.Some? {
      var moved := DestinationChange(e.value.typ, e.value.config, t, cfg);
      if moved.Some? {
        FilledLess(e, c, held, held, missing);
        cfg, missing := cfg - held, missing + held;
      } else if "numbers" in held && !SameCountryCode(e.value.config, cfg) {
        FilledLess(e, c, held, {"numbers"}, missing);
        cfg, missing := cfg - {"numbers"}, missing + {"numbers"};
      }
    }
  }

  lemma AllFilled(e: Option<Channel>, t: ChannelType, c: Config, cfg: Config, held: set<string>, missing: set<string>)
    requires forall k :: k in held <==> k in c && IsHeld(e, t, c, k)
    requires forall k :: k in missing <==> k in c && c[k] == Placeholder && !IsHeld(e, t, c, k)
    requires forall k :: k in cfg <==> k in c && (c[k] != Placeholder || IsHeld(e, t, c, k))
    requires forall k :: k in cfg ==> cfg[k] == if c[k] != Placeholder then c[k] else HeldValue(e, k)
    ensures held == Held(e, t, c) && missing == Withheld(c) - held && cfg == Filled(e, c, held)
  {
  }

  method FillAll(e: Option<Channel>, t: ChannelType, c: Config) returns (cfg: Config, held: set<string>, missing: set<string>)
    ensures held == Held(e, t, c) && missing == Withheld(c) - held && cfg == Filled(e, c, held)
  {
    hide Held, Withheld, Filled;
    cfg, held, missing := map[], {}, {};
    var left := c.Keys;
    while left != {}
      invariant forall k :: k in left ==> k in c
      invariant forall k :: k in held <==> k in c && k !in left && IsHeld(e, t, c, k)
      invariant forall k :: k in missing <==> k in c && k !in left && c[k] == Placeholder && !IsHeld(e, t, c, k)
      invariant forall k :: k in cfg <==> k in c && k !in left && (c[k] != Placeholder || IsHeld(e, t, c, k))
      invariant forall k :: k in cfg ==> cfg[k] == if c[k] != Placeholder then c[k] else HeldValue(e, k)
      decreases |left|
    {
      var k :| k in left;
      if c[k] != Placeholder {
        cfg := cfg[k := c[k]];
      } else if e.Some? && e.value.typ == t && ValueOf(e.value.config, k) != "" {
        cfg := cfg[k := ValueOf(e.value.config, k)];
        held := held + {k};
      } else {
        missing := missing + {k};
      }
      left := left - {k};
    }
    AllFilled(e, t, c, cfg, held, missing);
  }

  // -------------------------------------------------------------- settings still missing

  function StandIns(t: ChannelType, ks: set<string>): Config {
    map k | k in ks && k in StandInKeys() :: StandIn(t, k)
  }

  /** A channel's settings as the importer judges a file that withholds some of them. */
  function AsJudged(t: ChannelType, c: Config): Config { Literals(c) + StandIns(t, Withheld(c)) }

  /** notifier.ValidateEditedConfig: settings left as they are saved are accepted whatever rules came later,
      a webhook that keeps its header lines has them held to their form only, and anything else is held to
      every rule. */
  function Edited(p: Platform, t: ChannelType, c: Config, was: Option<Saved>): Option<Refusal> {
    if was.Some? && was.value.typ == t && c == was.value.config then None
    else if t == Webhook && was.Some? && was.value.typ == Webhook && ValueOf(c, "headers") == ValueOf(was.value.config, "headers")
    then p.keptHeaders(c)
    else p.sender(t, c)
  }

  /** validateChannel on a channel's settings: the first refusal. */
  function Settings(p: Platform, t: ChannelType, c: Config, was: Option<Saved>): Option<Refusal> {
    if p.shape(t, c).Some? then p.shape(t, c)
    else if Edited(p, t, c, was).Some? then Edited(p, t, c, was)
    else p.lengths(t, c)
  }

  /** importRefusal: c's settings written as cfg, held to the rules a save of c is. A saved name is not
      judged again beyond being there. */
  function ImportRefusal(p: Platform, c: Channel, cfg: Config): Option<Refusal> {
    if TrimSpace(c.name) == "" then Some(Refusal(AtOther("name"), "name is required"))
    else Settings(p, c.typ, AsJudged(c.typ, cfg), Some(Saved(c.typ, c.config)))
  }

  /** The setting a refusal asks for; a webhook's body is read by the type its headers name. */
  function AskedFor(t: ChannelType, r: Refusal): Option<string> {
    match r.at
    case AtConfig(k) => Some(if t == Webhook && k == "body" then "headers" else k)
    case AtOther(_) => None
  }

  /** Asking one question over and over: what the importer says of a channel written with given settings,
      and the setting such a refusal asks for. */
  datatype Asker = Asker(standIns: set<string>, judge: Config -> Option<Refusal>, askedFor: Refusal -> Option<string>) {
    predicate CanAdd(cfg: Config, r: Refusal) {
      var k := askedFor(r);
      k.Some? && k.value !in cfg && k.value in standIns
    }

    /** The settings asked for, one refusal after another. */
    function Added(cfg: Config, r: Option<Refusal>): (added: set<string>)
      ensures added <= standIns && added !! cfg.Keys
      decreases |standIns - cfg.Keys|
    {
      if r.None? || !CanAdd(cfg, r.value) then {} else
      var k := askedFor(r.value).value;
      Shrinks(standIns, cfg, k);
      var next := judge(cfg[k := Placeholder]);
      if next == r then {} else {k} + Added(cfg[k := Placeholder], next)
    }

    /** stillWithheld, which ends because each turn adds one of the settings that have a stand-in. */
    method AddAll(written: Config) returns (added: set<string>)
      ensures added == Added(written, judge(written))
    {
      hide Added;
      var cfg, r := written, judge(written);
      added := {};
      while r.Some? && CanAdd(cfg, r.value)
        invariant added + Added(cfg, r) == Added(written, judge(written))
        decreases |standIns - cfg.Keys|
      {
        var k := askedFor(r.value).value;
        OneAdded(cfg, r);
        Shrinks(standIns, cfg, k);
        cfg := cfg[k := Placeholder];
        var next := judge(cfg);
        if next == r { return; }
        Regroup(added, k, Added(cfg, next));
        added := added + {k};
        r := next;
      }
      NoneAdded(cfg, r);
    }

    lemma OneAdded(cfg: Config, r: Option<Refusal>)
      requires r.Some? && CanAdd(cfg, r.value)
      ensures var k := askedFor(r.value).value;
        var next := judge(cfg[k := Placeholder]);
        Added(cfg, r) == if next == r then {} else {k} + Added(cfg[k := Placeholder], next)
    {
    }

    lemma NoneAdded(cfg: Config, r: Option<Refusal>)
      requires !(r.Some? && CanAdd(cfg, r.value))
      ensures Added(cfg, r) == {}
    {
    }
  }

  lemma Regroup(a: set<string>, k: string, b: set<string>)
    ensures a + ({k} + b) == (a + {k}) + b
  {
  }

  lemma Shrinks(ks: set<string>, cfg: Config, k: string)
    requires k !in cfg && k in ks
    ensures |ks - cfg[k := Placeholder].Keys| < |ks - cfg.Keys|
  {
    var a, b := ks - cfg.Keys, ks - cfg[k := Placeholder].Keys;
    assert a == b + {k};
  }

  lemma {:induction false} SameQuestions(a: Asker, b: Asker, cfg: Config, r: Option<Refusal>)
    requires a.standIns == b.standIns && a.askedFor == b.askedFor && forall c :: a.judge(c) == b.judge(c)
    ensures a.Added(cfg, r) == b.Added(cfg, r)
    decreases |a.standIns - cfg.Keys|
  {
    if r.Some? && a.CanAdd(cfg, r.value) {
      var k := a.askedFor(r.value).value;
      Shrinks(a.standIns, cfg, k);
      SameQuestions(a, b, cfg[k := Placeholder], a.judge(cfg[k := Placeholder]));
    }
  }

  function AskerFor(p: Platform, c: Channel): Asker {
    Asker(StandInKeys(), cfg => ImportRefusal(p, c, cfg), AskedBy(c.typ))
  }

  function AskedBy(t: ChannelType): Refusal -> Option<string> { r => AskedFor(t, r) }

  function StillMissing(p: Platform, c: Channel, written: Config): set<string> {
    AskerFor(p, c).Added(written, ImportRefusal(p, c, written))
  }

  /** What a channel is still missing depends on its type and settings, not on its name. */
  lemma MissingIgnoresName(p: Platform, c: Channel, d: Channel, cfg: Config)
    requires c.typ == d.typ && c.config == d.config && TrimSpace(c.name) != "" && TrimSpace(d.name) != ""
    ensures StillMissing(p, c, cfg) == StillMissing(p, d, cfg)
  {
    SameQuestions(AskerFor(p, c), AskerFor(p, d), cfg, ImportRefusal(p, c, cfg));
  }

  // --------------------------------------------------------------------------- the plan

  function NextName(e: Option<Channel>, c: ChannelEntry): string {
    if e.Some? && TrimSpace(c.name) == "" then e.value.name else TrimSpace(c.name)
  }

  function NextType(e: Option<Channel>, c: ChannelEntry): ChannelType {
    c.typ.GetOr(if e.Some? then e.value.typ else OtherChannel(""))
  }

  function NextConfig(e: Option<Channel>, c: ChannelEntry): Config {
    if c.config.Some? || e.None? then Resolved(e, NextType(e, c), c.config.GetOr(map[])) else e.value.config
  }

  function NextMissing(p: Platform, e: Option<Channel>, c: ChannelEntry): set<string> {
    if c.config.Some? || e.None? then Missing(e, NextType(e, c), c.config.GetOr(map[]))
    else StillMissing(p, e.value, e.value.config)
  }

  /** The settings with a stand-in for each missing one, as the file is judged. */
  function NextJudged(p: Platform, e: Option<Channel>, c: ChannelEntry): Config {
    NextConfig(e, c) + StandIns(NextType(e, c), NextMissing(p, e, c))
  }

  predicate ChannelAccepted(p: Platform, e: Option<Channel>, c: ChannelEntry) {
    var name, typ, judged := NextName(e, c), NextType(e, c), NextJudged(p, e, c);
    && (e.Some? && c.config.None? ==> typ == e.value.typ)
    && name != "" && ((e.Some? && name == e.value.name) || NameOk(name))
    && Settings(p, typ, judged, if e.Some? then Some(Saved(e.value.typ, e.value.config)) else None).None?
    && (NextMissing(p, e, c) == {} ==> p.reachable(typ, judged))
  }

  /** The channel an entry leaves: switched off while a setting is missing. */
  function NextChannel(p: Platform, e: Option<Channel>, c: ChannelEntry): Option<Channel> {
    if !ChannelAccepted(p, e, c) then None else
    Some(Channel(NextName(e, c), NextType(e, c), NextConfig(e, c),
                 NextMissing(p, e, c) == {} && c.enabled.GetOr(if e.Some? then e.value.enabled else true)))
  }

  /** store.NormaliseQuietHours. */
  function NormalQuiet(p: Platform, q: Quiet): Option<Quiet> {
    var during := TrimSpace(q.during);
    var n := Quiet(TrimSpace(q.start), TrimSpace(q.end), TrimSpace(q.timezone), if during == "" then "hold" else during);
    if p.quietOk(n) then Some(n) else None
  }

  /** The quiet hours an entry leaves; the outer None refuses the file. */
  function NextQuiet(p: Platform, was: Option<Quiet>, edit: QuietEdit): Option<Option<Quiet>> {
    match edit
    case QuietAbsent => Some(was)
    case QuietNull => Some(None)
    case QuietWindow(q) => (match NormalQuiet(p, q) case Some(n) => Some(Some(n)) case None => None)
    case QuietMalformed => None
  }

  function ChannelOf(e: Option<ChannelView>): Option<Channel> { if e.Some? then Some(e.value.channel) else None }
  function QuietOf(e: Option<ChannelView>): Option<Quiet> { if e.Some? then e.value.quiet else None }

  function NextChannelView(p: Platform, e: Option<ChannelView>, c: ChannelEntry): Option<ChannelView> {
    var channel, quiet := NextChannel(p, ChannelOf(e), c), NextQuiet(p, QuietOf(e), c.quiet);
    if channel.None? || quiet.None? then None else Some(ChannelView(channel.value, quiet.value))
  }

  /** A channel is written in two calls, its row before its quiet hours. */
  predicate ChannelHalf(e: Option<ChannelView>, s: Option<ChannelView>, t: ChannelView) {
    s == e || s == Some(t) || s == Some(ChannelView(t.channel, QuietOf(e)))
  }

  /** A saved name is trimmed and not blank. */
  predicate Named(e: Option<Channel>) { e.Some? ==> e.value.name != "" && TrimSpaceFixed(e.value.name) }

  // ---------------------------------------------------------------------- run it again

  /** From the channel it left, an entry's placeholders resolve to the same values and the same settings
      are missing. */
  lemma ResolvedTwice(e: Option<Channel>, t: ChannelType, c: Config, d: Channel)
    requires d.typ == t && d.config == Resolved(e, t, c)
    ensures Resolved(Some(d), t, c) == d.config && Missing(Some(d), t, c) == Missing(e, t, c)
  {
    var kept := Kept(e, t, c);
    assert kept <= Held(e, t, c);
    assert Held(Some(d), t, c) == kept;
    assert Filled(Some(d), c, kept) == d.config;
    assert !Moved(d.typ, d.config, t, d.config);
    assert Kept(Some(d), t, c) == kept;
  }

  lemma MissingTwice(p: Platform, e: Option<Channel>, c: ChannelEntry, d: Channel)
    requires Dependable(p) && Named(e) && NextChannel(p, e, c) == Some(d)
    ensures NextConfig(Some(d), c) == d.config && NextMissing(p, Some(d), c) == NextMissing(p, e, c)
  {
    if c.config.Some? {
      ResolvedTwice(e, d.typ, c.config.value, d);
    } else if e.Some? {
      MissingIgnoresName(p, e.value, d, d.config);
    } else {
      NothingMissing(p, c, d);
    }
  }

  /** A channel created without any settings misses none, having been accepted without them. */
  lemma NothingMissing(p: Platform, c: ChannelEntry, d: Channel)
    requires Dependable(p) && c.config.None? && NextChannel(p, None, c) == Some(d)
    ensures NextConfig(Some(d), c) == d.config && NextMissing(p, Some(d), c) == NextMissing(p, None, c) == {}
  {
    assert NextMissing(p, None, c) == {} && d.config == map[];
    assert NextJudged(p, None, c) == map[] == AsJudged(d.typ, d.config);
  }

  /** Every stand-in is something, and the one for a webhook's headers is a line of its own. */
  lemma StandInsAreGiven(t: ChannelType, k: string)
    ensures |StandIn(t, k)| > 0 && StandIn(t, "headers") == TextHeader && "headers" in StandInKeys()
  {
  }

  /** Judged settings equal to the ones held name no other destination, so every held value is kept. */
  lemma JudgedAsHeldKeepsAll(e: Channel, c: Config, judged: Config)
    requires judged == Resolved(Some(e), e.typ, c) + StandIns(e.typ, Missing(Some(e), e.typ, c)) && judged == e.config
    ensures Kept(Some(e), e.typ, c) == Held(Some(e), e.typ, c)
  {
    hide StandIn, StandInKeys, DestinationKeys, DestinationDefault, TrimSpace;
    var held := Held(Some(e), e.typ, c);
    var filled := Filled(Some(e), c, held);
    forall k ensures ValueOf(filled, k) == ValueOf(e.config, k) {
      if k in c && c[k] != Placeholder { assert judged[k] == c[k]; }
    }
  }

  /** So no stand-in was needed. */
  lemma JudgedAsHeldHasNoStandIn(e: Channel, c: Config)
    requires Resolved(Some(e), e.typ, c) + StandIns(e.typ, Missing(Some(e), e.typ, c)) == e.config
    ensures Resolved(Some(e), e.typ, c) == e.config
  {
    hide StandIn, StandInKeys, Moved, SameCountryCode;
    var out, given := Resolved(Some(e), e.typ, c), StandIns(e.typ, Missing(Some(e), e.typ, c));
    forall k | k in given ensures k in Held(Some(e), e.typ, c) {
      StandInsAreGiven(e.typ, k);
      assert (out + given)[k] == given[k] == StandIn(e.typ, k);
    }
    JudgedAsHeldKeepsAll(e, c, e.config);
    assert given == map[];
  }

  lemma JudgedAsSavedIsNext(p: Platform, e: Channel, c: ChannelEntry)
    requires NextType(Some(e), c) == e.typ && NextJudged(p, Some(e), c) == e.config
    ensures NextConfig(Some(e), c) == e.config
  {
    if c.config.Some? { JudgedAsHeldHasNoStandIn(e, c.config.value); }
  }

  /** Judged settings hold other header lines than the ones saved of them only where the stand-in is. */
  lemma OtherHeaders(p: Platform, e: Option<Channel>, c: ChannelEntry)
    requires ValueOf(NextJudged(p, e, c), "headers") != ValueOf(NextConfig(e, c), "headers")
    ensures ValueOf(NextJudged(p, e, c), "headers") == TextHeader
  {
    hide NextConfig, NextMissing, StandIn, StandInKeys;
    StandInsAreGiven(NextType(e, c), "headers");
  }

  /** Settings that were accepted once are accepted again beside what was saved of them. */
  lemma AcceptedTwice(p: Platform, e: Option<Channel>, c: ChannelEntry, d: Channel)
    requires HeaderRules(p) && NextChannel(p, e, c) == Some(d)
    ensures Settings(p, d.typ, NextJudged(p, e, c), Some(Saved(d.typ, d.config))).None?
  {
    hide NextConfig, NextMissing, NextJudged, NextName, NextType, NameOk;
    var judged := NextJudged(p, e, c);
    if e.Some? && e.value.typ == d.typ && judged == e.value.config {
      JudgedAsSavedIsNext(p, e.value, c);
    } else if d.typ == Webhook && ValueOf(judged, "headers") != ValueOf(d.config, "headers") {
      OtherHeaders(p, e, c);
    }
  }

  lemma JudgedTwice(p: Platform, e: Option<Channel>, c: ChannelEntry, d: Channel)
    requires NextChannel(p, e, c) == Some(d)
    requires NextConfig(Some(d), c) == d.config && NextMissing(p, Some(d), c) == NextMissing(p, e, c)
    ensures NextJudged(p, Some(d), c) == NextJudged(p, e, c)
  {
    hide NextConfig, NextMissing;
  }

  lemma ChannelTwice(p: Platform, e: Option<Channel>, c: ChannelEntry)
    requires Dependable(p) && Named(e) && NextChannel(p, e, c).Some?
    ensures NextChannel(p, NextChannel(p, e, c), c) == NextChannel(p, e, c) && Named(NextChannel(p, e, c))
  {
    hide Lawful, HeaderRules, NextMissing, NextJudged, NextConfig;
    var d := NextChannel(p, e, c).value;
    MissingTwice(p, e, c, d);
    AcceptedTwice(p, e, c, d);
    JudgedTwice(p, e, c, d);
  }

  lemma NormalQuietTwice(p: Platform, q: Quiet)
    requires NormalQuiet(p, q).Some?
    ensures NormalQuiet(p, NormalQuiet(p, q).value) == NormalQuiet(p, q)
  {
  }

  /** Judged again on anything its own writing can have left, an entry makes the same channel. */
  lemma ChannelStable(p: Platform, e: Option<ChannelView>, s: Option<ChannelView>, c: ChannelEntry)
    requires Dependable(p) && Named(ChannelOf(e)) && NextChannelView(p, e, c).Some?
    requires ChannelHalf(e, s, NextChannelView(p, e, c).value)
    ensures NextChannelView(p, s, c) == NextChannelView(p, e, c)
  {
    ChannelTwice(p, ChannelOf(e), c);
  }
}
