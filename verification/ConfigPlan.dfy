/** Planning an import (planImport and its planners, internal/api/config_import.go and
    config_status_pages.go): every write is decided from the instance as it is found, or the file is
    refused. */
module ConfigPlan {
  import opened Prelude
  import opened MonitorRules
  import opened MonitorPatch
  import opened MonitorCreate
  import opened MonitorRecord
  import opened KeyedMerge
  import opened ConfigModel
  import opened ConfigChannels
  import opened ConfigMonitors
  import opened ConfigRules
  import opened ConfigPages
  import opened ConfigSpec
  import S = ConfigStore
  import opened ConfigSteps
  import opened ConfigImport
  import C = ConfigApplyChannels
  import M = ConfigApplyMonitors
  import R = ConfigApplyRules
  import P = ConfigApplyPages

  // ------------------------------------------------------------------------- channels

  /** The settings of a planned channel and those it still waits for. */
  method PlanConfig(p: Platform, e: Option<Channel>, x: ChannelEntry, t: ChannelType) returns (config: Config, missing: set<string>)
    requires t == NextType(e, x)
    ensures config == NextConfig(e, x) && missing == NextMissing(p, e, x)
  {
    if x.config.Some? || e.None? {
      config, missing := Resolve(e, t, x.config.GetOr(map[]));
    } else {
      config := e.value.config;
      missing := AskerFor(p, e.value).AddAll(config);
    }
  }

  /** planChannel, but for its quiet hours. */
  method PlanChannelRow(p: Platform, e: Option<Channel>, x: ChannelEntry) returns (next: Option<Channel>)
    ensures next == NextChannel(p, e, x)
  {
    hide StandIns, StillMissing, ConfigChannels.Resolved, ConfigChannels.Missing, NameOk;
    var name, typ, enabled := TrimSpace(x.name), x.typ.GetOr(OtherChannel("")), true;
    if e.Some? {
      if TrimSpace(x.name) == "" { name := e.value.name; }
      if x.typ.None? { typ := e.value.typ; }
      enabled := e.value.enabled;
      if x.config.None? && typ != e.value.typ { return None; }
    }
    if x.enabled.Some? { enabled := x.enabled.value; }
    var config, missing := PlanConfig(p, e, x, typ);
    var judged := config + StandIns(typ, missing);
    if name == "" { return None; }
    if !(e.Some? && name == e.value.name) && !NameOk(name) { return None; }
    if Settings(p, typ, judged, if e.Some? then Some(Saved(e.value.typ, e.value.config)) else None).Some? { return None; }
    if missing == {} {
      if !p.reachable(typ, judged) { return None; }
    } else {
      enabled := false;
    }
    return Some(Channel(name, typ, config, enabled));
  }

  /** planChannel. id is the channel's on this instance, isDefault whether it is the default here. */
  method PlanChannel(p: Platform, e: Option<ChannelView>, id: Option<S.Id>, isDefault: bool, x: ChannelEntry) returns (st: Option<ChannelStep>)
    requires id.Some? == e.Some?
    ensures st.Some? <==> NextChannelView(p, e, x).Some?
    ensures st.Some? ==> st.value.key == x.key && st.value.id == id && ChannelMakes(p, st.value, e, NextChannelView(p, e, x).value)
    ensures st.Some? ==> ChannelSpares(st.value, e, NextChannelView(p, e, x).value)
    ensures st.Some? ==> st.value.makeDefault == (x.isDefault && !isDefault)
  {
    hide NextChannel;
    var next := PlanChannelRow(p, ChannelOf(e), x);
    if next.None? { return None; }
    var quiet: Option<Quiet>, clear := None, false;
    match x.quiet {
      case QuietMalformed =>
        return None;
      case QuietAbsent =>
      case QuietNull =>
        clear := e.Some? && e.value.quiet.Some?;
      case QuietWindow(window) =>
        var q := NormalQuiet(p, window);
        if q.None? { return None; }
        NormalQuietTwice(p, window);
        if QuietOf(e) != q { quiet := q; }
    }
    return Some(ChannelStep(x.key, id, next.value, ChannelOf(e) != next, quiet, clear, x.isDefault && !isDefault));
  }

  // ------------------------------------------------------------------------- monitors

  /** planMonitor up to what it writes: the patch runs on a record of the stored or the blank monitor. */
  method PlanMonitorRow(p: Platform, e: Option<Monitor>, x: MonitorEntry, now: int) returns (planned: Option<Monitor>)
    requires e.Some? && e.value.pin == "" ==> e.value.pinAt == 0
    ensures planned == Planned(p.rules, e, x, now)
  {
    if e.None? && CreateProblem(p.rules, CreateOf(x)) != Fine { return None; }
    var record := new Record(StartOf(e, x));
    BlankHasNoPin(x);
    var problem := record.Apply(p.rules, PatchOf(x), now);
    if problem != Fine { return None; }
    var next := record.m;
    hide Patched, CreateProblem;
    var withheld := false;
    if x.headers.Some? {
      var headers, missing := ResolveHeaders(HeadersOf(e), x.headers.value);
      next := next.(headers := headers);
      withheld := missing != {};
    }
    if x.body.Some? {
      next := next.(body := ResolvedBody(BodyOf(e), x.body.value));
      withheld := withheld || BodyMissing(BodyOf(e), x.body.value);
    }
    if withheld { next := next.(enabled := false); }
    assert next == WithPayload(e, x, record.m);
    return if PayloadAccepted(p.rules, e, x, next) then Some(next) else None;
  }

  lemma BlankHasNoPin(x: MonitorEntry)
    ensures Blank(x).pin == "" && Blank(x).pinAt == 0
  {
  }

  /** sameIDs: the ids behind the keys a file names are exactly the ones the instance has. A key that is
      not on the instance yet is always a change. */
  method SameIds(ring: S.Keyring, have: set<S.Id>, keys: seq<Key>) returns (same: bool)
    requires ring.Valid()
    ensures same <==> ring.RefsOf(have) == Refs(keys)
  {
    var want: set<S.Id> := {};
    for i := 0 to |keys|
      invariant forall k :: k in keys[..i] ==> k in ring.idOf
      invariant want == set k | k in keys[..i] :: ring.idOf[k]
    {
      assert keys[..i + 1] == keys[..i] + [keys[i]];
      if keys[i] !in ring.idOf {
        UnknownDiffers(ring, have, keys, keys[i]);
        return false;
      }
      want := want + {ring.idOf[keys[i]]};
    }
    assert keys[..|keys|] == keys;
    S.RefsOfKeys(ring, keys, want);
    if have != want && ring.RefsOf(have) == ring.RefsOf(want) { S.RefsInjective(ring, have, want); }
    return have == want;
  }

  lemma UnknownDiffers(ring: S.Keyring, have: set<S.Id>, keys: seq<Key>, k: Key)
    requires ring.Valid() && k in keys && k !in ring.idOf
    ensures ring.RefsOf(have) != Refs(keys)
  {
    assert Keyed(k) in Refs(keys);
    forall i | i in have ensures ring.RefOf(i) != Keyed(k) {}
  }

  // --------------------------------------------------------------------------- rules

  /** planRule. row is the rule under the entry's tag pair. */
  method PlanRule(p: Platform, row: Option<S.RuleRow>, channels: S.Keyring, monitors: S.Keyring, x: RuleEntry) returns (st: Option<RuleStep>)
    requires channels.Valid() && monitors.Valid()
    ensures var e := if row.Some? then Some(S.RuleSeen(row.value, channels, monitors)) else None;
            && (st.Some? <==> NextRule(p, e, x).Some?)
            && (st.Some? ==> st.value.tag == RulePair(p, x) && st.value.found == row.Some? && RuleMakes(st.value, e, NextRule(p, e, x).value))
            && (st.Some? ==> RuleSpares(st.value, e, NextRule(p, e, x).value))
    ensures st.Some? ==> st.value.excluded == if row.Some? then row.value.excluded else {}
    ensures st.Some? ==> st.value.exclude.Some? ==> st.value.exclude == x.exclude
    ensures st.Some? ==> st.value.channels.Some? ==> st.value.channels == x.channels || st.value.channels == Some([])
  {
    var tag := RulePair(p, x);
    if !TagOk(p, tag, row.Some?) { return None; }
    if row.None? {
      return Some(RuleStep(tag, false, Some(x.channels.GetOr([])), true, x.exclude, {}));
    }
    var write, sendChannels, sendExclude := false, x.channels, x.exclude;
    if x.channels.Some? {
      var same := SameIds(channels, row.value.channels, x.channels.value);
      if same { sendChannels := None; } else { write := true; }
    }
    if x.exclude.Some? {
      var same := SameIds(monitors, row.value.excluded, x.exclude.value);
      if same { sendExclude := None; }
    }
    return Some(RuleStep(tag, true, sendChannels, write, sendExclude, row.value.excluded));
  }

  // -------------------------------------------------------------------------- windows

  /** planWindow: the window, and whether it is here already. */
  method PlanWindow(p: Platform, ws: seq<Window>, x: WindowEntry) returns (w: Option<Window>, here: bool)
    ensures w == NextWindow(p, ws, x)
    ensures w.Some? ==> here == (w.value in ws)
  {
    var next := WindowOf(p, x);
    var savedName, savedTag := false, false;
    here := false;
    for i := 0 to |ws|
      invariant savedName == (HasControlCharacter(next.name) && exists v :: v in ws[..i] && v.name == next.name)
      invariant savedTag == (HasControlCharacter(next.tagValue) && exists v :: v in ws[..i] && v.tagKey == next.tagKey && v.tagValue == next.tagValue)
      invariant here == (next in ws[..i])
    {
      assert ws[..i + 1] == ws[..i] + [ws[i]];
      if HasControlCharacter(next.name) && ws[i].name == next.name { savedName := true; }
      if HasControlCharacter(next.tagValue) && ws[i].tagKey == next.tagKey && ws[i].tagValue == next.tagValue { savedTag := true; }
      if ws[i] == next { here := true; }
    }
    assert ws[..|ws|] == ws;
    var judged := next.(name := if savedName then "-" else next.name, tagValue := if savedTag then "-" else next.tagValue);
    if !Storable(p, judged) { return None, here; }
    if (savedName || savedTag) && !here { return None, here; }
    return Some(next), here;
  }

  // ---------------------------------------------------------------------------- pages

  /** planPage. */
  method PlanPage(p: Platform, e: Option<PageView>, x: PageEntry) returns (st: Option<PageStep>)
    requires Dependable(p)
    ensures st.Some? <==> NextPage(p, e, x).Some?
    ensures st.Some? ==> st.value.slug == SlugOf(p, x) && PageMakes(p, st.value, e, NextPage(p, e, x).value)
    ensures st.Some? ==> PageSpares(st.value, e, NextPage(p, e, x).value)
    ensures st.Some? ==> st.value.monitors.Some? ==> st.value.monitors == x.monitors
  {
    if !SlugOk(p, SlugOf(p, x)) { return None; }
    if x.selection.None? && (x.tagKey != "" || x.tagValue != "") { return None; }
    var next := NormalPage(p, Overlay(PageOf(e), x), PageOf(e));
    if next.None? { return None; }
    if x.monitors.Some? && !EntriesOk(x.monitors.value, EntriesIn(e)) { return None; }
    var monitors := x.monitors;
    if e.Some? && monitors.Some? && EntriesOf(monitors.value) == e.value.entries { monitors := None; }
    NormalOfNormal(p, Overlay(PageOf(e), x), PageOf(e), next.value);
    return Some(PageStep(SlugOf(p, x), e.Some?, next.value, PageOf(e) != next, monitors));
  }

  lemma NormalOfNormal(p: Platform, a: Page, saved: Option<Page>, t: Page)
    requires Dependable(p) && NormalPage(p, a, saved) == Some(t)
    ensures NormalPage(p, t, saved) == Some(t)
  {
    TrimmedTwice(p, a, t);
  }

  // ----------------------------------------------------------------------- the references

  /** checkRefs. */
  method CheckRefs(keys: Option<seq<Key>>, known: set<Key>) returns (ok: bool)
    ensures ok <==> Known(keys, known)
  {
    if keys.None? { return true; }
    for i := 0 to |keys.value|
      invariant forall k :: k in keys.value[..i] ==> k in known
    {
      assert keys.value[..i + 1] == keys.value[..i] + [keys.value[i]];
      if keys.value[i] !in known {
        assert keys.value[i] in keys.value;
        return false;
      }
    }
    assert keys.value[..|keys.value|] == keys.value;
    return true;
  }

  // ------------------------------------------------------------------------ the sections

  method PlanChannels(p: Platform, db: S.Db, xs: seq<ChannelEntry>) returns (steps: Option<seq<ChannelStep>>)
    requires S.Valid(db)
    ensures steps.Some? <==> Accepted(ChannelRule(p), ChannelKey(), S.Seen(db).channels, xs)
    ensures steps.Some? ==> C.ChannelsPlanned(p, S.Seen(db), db.channelKeys.idOf, xs, steps.value)
  {
    hide NextChannelView, ChannelMakes, ChannelSpares, S.Valid, S.Seen;
    var out: seq<ChannelStep> := [];
    for i := 0 to |xs|
      invariant |out| == i && forall j :: 0 <= j < i ==> C.ChannelPlanned(p, S.Seen(db), db.channelKeys.idOf, xs[j], out[j])
    {
      var x := xs[i];
      var id, e, isDefault := FindChannel(db, x.key);
      var st := PlanChannel(p, e, id, isDefault, x);
      if st.None? {
        assert ChannelRule(p)(Get(S.Seen(db).channels, ChannelKey()(xs[i])), xs[i]).None?;
        return None;
      }
      out := out + [st.value];
    }
    return Some(out);
  }

  /** What the instance has under a channel key. */
  method FindChannel(db: S.Db, k: Key) returns (id: Option<S.Id>, e: Option<ChannelView>, isDefault: bool)
    requires S.Valid(db)
    ensures id == Get(db.channelKeys.idOf, k) && e == Get(S.Seen(db).channels, k) && id.Some? == e.Some?
    ensures isDefault == (S.Seen(db).defaultChannel == Some(Keyed(k)))
  {
    S.KeysSeen(db);
    if k !in db.channelKeys.idOf { return None, None, false; }
    S.KeyedChannel(db, k);
    var i := db.channelKeys.idOf[k];
    return Some(i), Some(ChannelView(db.channels[i], Get(db.quiet, i))), db.defaultId == Some(i);
  }

  /** planMonitor: what is written, and whether the monitor's channels change. */
  method PlanMonitor(p: Platform, e: Option<Monitor>, id: Option<S.Id>, attached: set<S.Id>, channels: S.Keyring, x: MonitorEntry, now: int)
    returns (st: Option<MonitorStep>)
    requires channels.Valid() && id.Some? == e.Some? && (e.Some? && e.value.pin == "" ==> e.value.pinAt == 0)
    requires e.None? ==> attached == {}
    ensures var v := if e.Some? then Some(MonitorView(Undated(e.value), channels.RefsOf(attached))) else None;
            && (st.Some? <==> NextMonitorView(p, v, x).Some?)
            && (st.Some? ==> MonitorMakes(st.value, v, NextMonitorView(p, v, x).value))
            && (st.Some? ==> MonitorSpares(p.rules, st.value, v, NextMonitorView(p, v, x).value, Planned(p.rules, MonitorOf(v), x, 0)))
    ensures st.Some? ==> st.value.key == x.key && st.value.id == id && (st.value.channels.Some? ==> st.value.channels == x.channels)
  {
    hide Planned, Stored, Undated, Changed;
    var planned := PlanMonitorRow(p, e, x, now);
    UndatedNext(p.rules, e, x, now);
    UndatedPlan(p.rules, e, x, now);
    if planned.None? { return None; }
    if e.Some? { UndatedRow(p.rules, e, planned.value); }
    var write := e.None? || Changed(p.rules, e.value, planned.value);
    var send := x.channels;
    if e.Some? && x.channels.Some? {
      var same := SameIds(channels, attached, x.channels.value);
      if same { send := None; }
    }
    return Some(MonitorStep(x.key, id, planned.value, write, send));
  }

  method PlanMonitors(p: Platform, db: S.Db, xs: seq<MonitorEntry>, known: set<Key>, now: int) returns (steps: Option<seq<MonitorStep>>)
    requires S.Valid(db)
    ensures steps.Some? <==> Accepted(MonitorRule(p), MonitorKey(), S.Seen(db).monitors, xs) && M.ChannelRefsIn(xs, known)
    ensures steps.Some? ==> M.MonitorsPlanned(p, S.Seen(db).monitors, db.monitorKeys.idOf, xs, steps.value)
  {
    hide NextMonitorView, MonitorMakes, MonitorSpares, Planned, S.Seen;
    var out: seq<MonitorStep> := [];
    for i := 0 to |xs|
      invariant |out| == i && forall j :: 0 <= j < i ==> M.MonitorPlanned(p, S.Seen(db).monitors, db.monitorKeys.idOf, xs[j], out[j])
      invariant forall j :: 0 <= j < i ==> Known(xs[j].channels, known)
    {
      var x := xs[i];
      var ok := CheckRefs(x.channels, known);
      if !ok { return None; }
      var id, e, attached := FindMonitor(db, x.key);
      var st := PlanMonitor(p, e, id, attached, db.channelKeys, x, now);
      if st.None? {
        assert MonitorRule(p)(Get(S.Seen(db).monitors, MonitorKey()(xs[i])), xs[i]).None?;
        return None;
      }
      out := out + [st.value];
    }
    return Some(out);
  }

  /** What the instance has under a monitor key. */
  method FindMonitor(db: S.Db, k: Key) returns (id: Option<S.Id>, e: Option<Monitor>, attached: set<S.Id>)
    requires S.Valid(db)
    ensures db.channelKeys.Valid() && id == Get(db.monitorKeys.idOf, k) && id.Some? == e.Some? && (e.None? ==> attached == {})
    ensures Get(S.Seen(db).monitors, k) == if e.Some? then Some(MonitorView(Undated(e.value), db.channelKeys.RefsOf(attached))) else None
    ensures e.Some? && e.value.pin == "" ==> e.value.pinAt == 0
  {
    hide Undated, S.Valid, S.Seen;
    S.KeysSeen(db);
    S.RingsValid(db);
    if k !in db.monitorKeys.idOf { return None, None, {}; }
    S.KeyedMonitor(db, k);
    var i := db.monitorKeys.idOf[k];
    S.RowIsPinTimed(db, i);
    return Some(i), Some(db.monitors[i]), S.AttachedTo(db.attached, i);
  }

  /** The first n rule entries are planned: known references, no pair twice. */
  ghost predicate RulesSoFar(p: Platform, was: map<TagPair, RuleView>, rows: map<TagPair, S.RuleRow>, xs: seq<RuleEntry>,
                             out: seq<RuleStep>, channels: set<Key>, monitors: set<Key>)
    requires |out| <= |xs|
  {
    && (forall j :: 0 <= j < |out| ==> R.RulePlanned(p, was, rows, xs[j], out[j])) && R.RuleRefsIn(out, channels, monitors)
    && (forall j :: 0 <= j < |out| ==> Known(xs[j].channels, channels) && Known(xs[j].exclude, monitors))
    && (forall j, k :: 0 <= j < k < |out| ==> RuleKey(p)(xs[j]) != RuleKey(p)(xs[k]))
  }

  /** No rule entry is refused, names something unknown or repeats a pair. */
  ghost predicate RulesAccepted(p: Platform, was: map<TagPair, RuleView>, xs: seq<RuleEntry>, channels: set<Key>, monitors: set<Key>) {
    && Accepted(RuleRule(p), RuleKey(p), was, xs) && Distinct(RuleKey(p), xs)
    && (forall i :: 0 <= i < |xs| ==> Known(xs[i].channels, channels) && Known(xs[i].exclude, monitors))
  }

  lemma RuleRefused(p: Platform, was: map<TagPair, RuleView>, xs: seq<RuleEntry>, i: nat, channels: set<Key>, monitors: set<Key>)
    requires i < |xs|
    requires || RuleRule(p)(Get(was, RuleKey(p)(xs[i])), xs[i]).None?
             || !Known(xs[i].channels, channels) || !Known(xs[i].exclude, monitors)
    ensures !RulesAccepted(p, was, xs, channels, monitors)
  {
    hide NextRule, TagPairOf, Known;
  }

  lemma OneMoreRule(p: Platform, was: map<TagPair, RuleView>, rows: map<TagPair, S.RuleRow>, xs: seq<RuleEntry>,
                    out: seq<RuleStep>, st: RuleStep, channels: set<Key>, monitors: set<Key>)
    requires |out| < |xs| && RulesSoFar(p, was, rows, xs, out, channels, monitors)
    requires R.RulePlanned(p, was, rows, xs[|out|], st) && Known(xs[|out|].channels, channels) && Known(xs[|out|].exclude, monitors)
    requires Known(st.channels, channels) && Known(st.exclude, monitors) && forall j :: 0 <= j < |out| ==> out[j].tag != st.tag
    ensures RulesSoFar(p, was, rows, xs, out + [st], channels, monitors)
  {
    hide RuleMakes, RuleSpares, NextRule, TagPairOf;
  }

  lemma NoRuleYet(p: Platform, was: map<TagPair, RuleView>, rows: map<TagPair, S.RuleRow>, xs: seq<RuleEntry>, channels: set<Key>, monitors: set<Key>)
    ensures RulesSoFar(p, was, rows, xs, [], channels, monitors)
  {
  }

  lemma PairTwice(p: Platform, was: map<TagPair, RuleView>, rows: map<TagPair, S.RuleRow>, xs: seq<RuleEntry>,
                  out: seq<RuleStep>, tag: TagPair, channels: set<Key>, monitors: set<Key>)
    requires |out| < |xs| && RulesSoFar(p, was, rows, xs, out, channels, monitors) && tag == RuleKey(p)(xs[|out|])
    requires exists j :: 0 <= j < |out| && out[j].tag == tag
    ensures !RulesAccepted(p, was, xs, channels, monitors)
  {
    hide RuleMakes, RuleSpares, NextRule, TagPairOf;
    var j :| 0 <= j < |out| && out[j].tag == tag;
    assert RuleKey(p)(xs[j]) == RuleKey(p)(xs[|out|]);
  }

  lemma EveryRule(p: Platform, was: map<TagPair, RuleView>, rows: map<TagPair, S.RuleRow>, xs: seq<RuleEntry>,
                  out: seq<RuleStep>, channels: set<Key>, monitors: set<Key>)
    requires |out| == |xs| && RulesSoFar(p, was, rows, xs, out, channels, monitors)
    ensures RulesAccepted(p, was, xs, channels, monitors) && R.RulesPlanned(p, was, rows, xs, out) && R.RuleRefsIn(out, channels, monitors)
  {
    hide RuleMakes, RuleSpares, NextRule, TagPairOf;
    forall i | 0 <= i < |xs| ensures RuleRule(p)(Get(was, RuleKey(p)(xs[i])), xs[i]).Some? {
      assert R.RulePlanned(p, was, rows, xs[i], out[i]);
    }
  }

  method PlanRules(p: Platform, db: S.Db, xs: seq<RuleEntry>, channels: set<Key>, monitors: set<Key>) returns (steps: Option<seq<RuleStep>>)
    requires S.Valid(db)
    ensures steps.Some? <==> RulesAccepted(p, S.Seen(db).rules, xs, channels, monitors)
    ensures steps.Some? ==> R.RulesPlanned(p, S.Seen(db).rules, db.rules, xs, steps.value) && R.RuleRefsIn(steps.value, channels, monitors)
  {
    hide S.Valid, S.Seen, RulesAccepted, RulesSoFar, R.RulesPlanned, R.RuleRefsIn;
    var out: seq<RuleStep> := [];
    NoRuleYet(p, S.Seen(db).rules, db.rules, xs, channels, monitors);
    for i := 0 to |xs|
      invariant |out| == i && RulesSoFar(p, S.Seen(db).rules, db.rules, xs, out, channels, monitors)
    {
      var st := PlanNextRule(p, db, xs, out, channels, monitors);
      if st.None? { return None; }
      out := out + [st.value];
    }
    EveryRule(p, S.Seen(db).rules, db.rules, xs, out, channels, monitors);
    return Some(out);
  }

  /** One turn of the loop over the rules. */
  method PlanNextRule(p: Platform, db: S.Db, xs: seq<RuleEntry>, out: seq<RuleStep>, channels: set<Key>, monitors: set<Key>)
    returns (st: Option<RuleStep>)
    requires S.Valid(db) && |out| < |xs| && RulesSoFar(p, S.Seen(db).rules, db.rules, xs, out, channels, monitors)
    ensures if st.Some? then RulesSoFar(p, S.Seen(db).rules, db.rules, xs, out + [st.value], channels, monitors)
            else !RulesAccepted(p, S.Seen(db).rules, xs, channels, monitors)
  {
    hide NextRule, RuleMakes, RuleSpares, S.Valid, S.Seen, S.RuleSeen, S.Keyring.Valid, TagPairOf, TagOk, RulesAccepted, RulesSoFar,
      R.RulePlanned, R.RuleRefsIn, Known, RuleKey, RuleRule;
    S.RingsValid(db);
    ghost var was := S.Seen(db).rules;
    var x := xs[|out|];
    var channelsOk := CheckRefs(x.channels, channels);
    var monitorsOk := CheckRefs(x.exclude, monitors);
    if !channelsOk || !monitorsOk {
      RuleRefused(p, was, xs, |out|, channels, monitors);
      return None;
    }
    st := PlanOneRule(p, db, x, channels, monitors);
    if st.None? {
      RuleRefused(p, was, xs, |out|, channels, monitors);
      return None;
    }
    var twice := Listed(out, st.value.tag);
    if twice {
      PairTwice(p, was, db.rules, xs, out, st.value.tag, channels, monitors);
      return None;
    }
    OneMoreRule(p, was, db.rules, xs, out, st.value, channels, monitors);
  }

  method PlanOneRule(p: Platform, db: S.Db, x: RuleEntry, ghost channels: set<Key>, ghost monitors: set<Key>) returns (st: Option<RuleStep>)
    requires db.channelKeys.Valid() && db.monitorKeys.Valid() && Known(x.channels, channels) && Known(x.exclude, monitors)
    ensures st.Some? <==> RuleRule(p)(Get(S.Seen(db).rules, RuleKey(p)(x)), x).Some?
    ensures st.Some? ==> R.RulePlanned(p, S.Seen(db).rules, db.rules, x, st.value) && st.value.tag == RuleKey(p)(x)
    ensures st.Some? ==> Known(st.value.channels, channels) && Known(st.value.exclude, monitors)
  {
    hide NextRule, RuleMakes, RuleSpares, S.Seen, S.RuleSeen, TagPairOf;
    var tag := RuleKey(p)(x);
    var row := FindRule(db, tag);
    st := PlanRule(p, row, db.channelKeys, db.monitorKeys, x);
  }

  method FindRule(db: S.Db, tag: TagPair) returns (row: Option<S.RuleRow>)
    ensures row == Get(db.rules, tag)
    ensures Get(S.Seen(db).rules, tag) == if row.Some? then Some(S.RuleSeen(row.value, db.channelKeys, db.monitorKeys)) else None
  {
    return if tag in db.rules then Some(db.rules[tag]) else None;
  }

  method FindPage(db: S.Db, slug: string) returns (e: Option<PageView>)
    ensures e == Get(S.Seen(db).pages, slug) && e.Some? == (slug in db.pages)
  {
    return if slug in db.pages then Some(S.PageSeen(db.pages[slug], db.monitorKeys)) else None;
  }

  /** The scan of the planned rules for a tag pair listed before. */
  method Listed(steps: seq<RuleStep>, tag: TagPair) returns (twice: bool)
    ensures twice <==> exists j :: 0 <= j < |steps| && steps[j].tag == tag
  {
    for i := 0 to |steps|
      invariant forall j :: 0 <= j < i ==> steps[j].tag != tag
    {
      if steps[i].tag == tag { return true; }
    }
    return false;
  }

  method PlanWindows(p: Platform, ws: seq<Window>, xs: seq<WindowEntry>, monitors: set<Key>) returns (steps: Option<seq<WindowStep>>)
    ensures steps.Some? <==> WindowsAccepted(p, ws, xs) && forall i :: 0 <= i < |xs| ==> xs[i].monitor == "" || xs[i].monitor in monitors
    ensures steps.Some? ==> R.WindowsPlanned(p, NewWindows(p, ws, xs), steps.value) && R.WindowRefsIn(steps.value, monitors)
  {
    hide NextWindow, Storable, WindowOf;
    var out: seq<WindowStep> := [];
    ghost var asked := Described(p, xs);
    for i := 0 to |xs|
      invariant R.WindowsPlanned(p, Fresh(ws, asked, i), out) && R.WindowRefsIn(out, monitors)
      invariant forall j :: 0 <= j < i ==> NextWindow(p, ws, xs[j]).Some?
      invariant forall j :: 0 <= j < i ==> xs[j].monitor == "" || xs[j].monitor in monitors
    {
      var x := xs[i];
      if x.monitor != "" && x.monitor !in monitors { return None; }
      var w, here := PlanWindow(p, ws, x);
      if w.None? { return None; }
      DescribedAt(p, ws, x, w.value);
      if !here {
        NewIsStorable(p, ws, x);
        out := out + [WindowStep(w.value, x.monitor)];
      }
    }
    if |out| > 0 && |ws| + |out| > WindowLimit { return None; }
    return Some(out);
  }

  lemma DescribedAt(p: Platform, ws: seq<Window>, x: WindowEntry, w: Window)
    requires NextWindow(p, ws, x) == Some(w)
    ensures w == WindowOf(p, x) && w.monitor == if x.monitor == "" then None else Some(Keyed(x.monitor))
  {
  }

  /** No page entry is refused or lists an unknown monitor. */
  ghost predicate PagesAccepted(p: Platform, was: map<string, PageView>, xs: seq<PageEntry>, monitors: set<Key>) {
    && Accepted(PageRule(p), PageKey(p), was, xs)
    && (forall i :: 0 <= i < |xs| && xs[i].monitors.Some? ==> forall e :: e in xs[i].monitors.value ==> e.monitor in monitors)
  }

  /** The first page entries are planned. */
  ghost predicate PagesSoFar(p: Platform, was: map<string, PageView>, rows: map<string, S.PageRow>, xs: seq<PageEntry>, out: seq<PageStep>, monitors: set<Key>)
    requires |out| <= |xs|
  {
    && (forall j :: 0 <= j < |out| ==> P.PagePlanned(p, was, rows, xs[j], out[j])) && P.PageRefsIn(out, monitors)
    && (forall j :: 0 <= j < |out| && xs[j].monitors.Some? ==> forall e :: e in xs[j].monitors.value ==> e.monitor in monitors)
  }

  lemma PageRefused(p: Platform, was: map<string, PageView>, xs: seq<PageEntry>, i: nat, monitors: set<Key>)
    requires i < |xs|
    requires || PageRule(p)(Get(was, PageKey(p)(xs[i])), xs[i]).None?
             || !(xs[i].monitors.Some? ==> forall e :: e in xs[i].monitors.value ==> e.monitor in monitors)
    ensures !PagesAccepted(p, was, xs, monitors)
  {
    hide NextPage, SlugOf;
  }

  lemma OneMorePage(p: Platform, was: map<string, PageView>, rows: map<string, S.PageRow>, xs: seq<PageEntry>, out: seq<PageStep>, st: PageStep, monitors: set<Key>)
    requires |out| < |xs| && PagesSoFar(p, was, rows, xs, out, monitors) && P.PagePlanned(p, was, rows, xs[|out|], st)
    requires xs[|out|].monitors.Some? ==> forall e :: e in xs[|out|].monitors.value ==> e.monitor in monitors
    requires st.monitors.Some? ==> st.monitors == xs[|out|].monitors
    ensures PagesSoFar(p, was, rows, xs, out + [st], monitors)
  {
    hide P.PagePlanned;
  }

  lemma EveryPage(p: Platform, was: map<string, PageView>, rows: map<string, S.PageRow>, xs: seq<PageEntry>, out: seq<PageStep>, monitors: set<Key>)
    requires |out| == |xs| && PagesSoFar(p, was, rows, xs, out, monitors)
    ensures PagesAccepted(p, was, xs, monitors) && P.PagesPlanned(p, was, rows, xs, out) && P.PageRefsIn(out, monitors)
  {
    hide NextPage, PageMakes, PageSpares, SlugOf;
  }

  method PlanPages(p: Platform, db: S.Db, xs: seq<PageEntry>, monitors: set<Key>) returns (steps: Option<seq<PageStep>>)
    requires S.Valid(db) && Dependable(p)
    ensures steps.Some? <==> PagesAccepted(p, S.Seen(db).pages, xs, monitors)
    ensures steps.Some? ==> P.PagesPlanned(p, S.Seen(db).pages, db.pages, xs, steps.value) && P.PageRefsIn(steps.value, monitors)
  {
    hide Dependable, NextPage, PageMakes, PageSpares, S.Valid, S.Seen, SlugOf, PagesAccepted, P.PagesPlanned;
    ghost var was := S.Seen(db).pages;
    var out: seq<PageStep> := [];
    for i := 0 to |xs|
      invariant |out| == i && PagesSoFar(p, was, db.pages, xs, out, monitors)
    {
      var ok := CheckEntries(xs[i].monitors, monitors);
      if !ok {
        PageRefused(p, was, xs, i, monitors);
        return None;
      }
      var e := FindPage(db, PageKey(p)(xs[i]));
      var st := PlanPage(p, e, xs[i]);
      if st.None? {
        PageRefused(p, was, xs, i, monitors);
        return None;
      }
      OneMorePage(p, was, db.pages, xs, out, st.value, monitors);
      out := out + [st.value];
    }
    EveryPage(p, was, db.pages, xs, out, monitors);
    return Some(out);
  }

  method CheckEntries(list: Option<seq<PageMonitor>>, known: set<Key>) returns (ok: bool)
    ensures ok <==> (list.Some? ==> forall m :: m in list.value ==> m.monitor in known)
  {
    if list.None? { return true; }
    for i := 0 to |list.value|
      invariant forall m :: m in list.value[..i] ==> m.monitor in known
    {
      assert list.value[..i + 1] == list.value[..i] + [list.value[i]];
      if list.value[i].monitor !in known {
        assert list.value[i] in list.value;
        return false;
      }
    }
    assert list.value[..|list.value|] == list.value;
    return true;
  }

  // ------------------------------------------------------------------------- the plan

  /** planImport: the file is refused exactly when its view of the instance does not accept it, and
      otherwise every write is decided. */
  method PlanImport(p: Platform, db: S.Db, doc: Document, now: int) returns (plan: Option<Plan>)
    requires S.Valid(db) && Dependable(p) && Parsed(p, doc)
    ensures plan.Some? <==> Accepts(p, S.Seen(db), doc)
    ensures plan.Some? ==> PlanFits(p, db, doc, plan.value)
  {
    hide S.Valid, S.Seen, Accepts, RefsKnown, ChannelKeys, MonitorKeys, Known, WindowsAccepted, Dependable, Parsed, Accepted,
      Distinct, NewWindows, C.ChannelsPlanned, M.MonitorsPlanned, M.ChannelRefsIn, R.RulesPlanned, R.RuleRefsIn,
      R.WindowsPlanned, R.WindowRefsIn, P.PagesPlanned, P.PageRefsIn, RulesAccepted, PagesAccepted;
    var channels, monitors := db.channelKeys.idOf.Keys + ChannelKeys(doc), db.monitorKeys.idOf.Keys + MonitorKeys(doc);
    S.KeysSeen(db);
    AcceptsInParts(p, S.Seen(db), doc, channels, monitors);
    var cs := PlanChannels(p, db, doc.channels);
    if cs.None? { return None; }
    var ms := PlanMonitors(p, db, doc.monitors, channels, now);
    if ms.None? { return None; }
    var rs := PlanRules(p, db, doc.rules, channels, monitors);
    if rs.None? { return None; }
    var ws := PlanWindows(p, S.WindowsSeen(db.windows, db.monitorKeys), doc.windows, monitors);
    WindowsOf(db);
    if ws.None? { return None; }
    var ps := PlanPages(p, db, doc.pages, monitors);
    if ps.None? { return None; }
    return Some(Plan(cs.value, ms.value, rs.value, ws.value, ps.value));
  }

  lemma AcceptsInParts(p: Platform, v: View, doc: Document, channels: set<Key>, monitors: set<Key>)
    requires channels == v.channels.Keys + ChannelKeys(doc) && monitors == v.monitors.Keys + MonitorKeys(doc)
    ensures Accepts(p, v, doc) <==>
      && Accepted(ChannelRule(p), ChannelKey(), v.channels, doc.channels)
      && Accepted(MonitorRule(p), MonitorKey(), v.monitors, doc.monitors) && M.ChannelRefsIn(doc.monitors, channels)
      && RulesAccepted(p, v.rules, doc.rules, channels, monitors)
      && WindowsAccepted(p, v.windows, doc.windows)
      && (forall i :: 0 <= i < |doc.windows| ==> doc.windows[i].monitor == "" || doc.windows[i].monitor in monitors)
      && PagesAccepted(p, v.pages, doc.pages, monitors)
  {
    hide Accepted, Distinct, WindowsAccepted, ChannelKeys, MonitorKeys, Known;
  }

  lemma WindowsOf(db: S.Db)
    ensures S.Seen(db).windows == S.WindowsSeen(db.windows, db.monitorKeys)
  {
  }
}
