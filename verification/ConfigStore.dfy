/** The store an import writes to (internal/store): objects by id, configuration keys as a one-to-one
    table beside them, and every call a step that takes effect whole or fails without effect. View
    forgets the ids. */
module ConfigStore {
  import opened Prelude
  import opened MonitorRules
  import opened KeyedMerge
  import opened ConfigModel
  import opened ConfigChannels
  import opened ConfigMonitors
  import opened ConfigRules
  import opened ConfigPages

  datatype Id = Id(n: int)

  /** The configuration keys of one kind of object. */
  datatype Keyring = Keyring(idOf: map<Key, Id>, keyOf: map<Id, Key>) {
    ghost predicate Valid() {
      && (forall k :: k in idOf ==> idOf[k] in keyOf && keyOf[idOf[k]] == k)
      && (forall i :: i in keyOf ==> keyOf[i] in idOf && idOf[keyOf[i]] == i)
    }

    function RefOf(i: Id): Ref { if i in keyOf then Keyed(keyOf[i]) else Raw(i.n) }
    function RefsOf(ids: set<Id>): set<Ref> { set i | i in ids :: RefOf(i) }
    function Add(k: Key, i: Id): Keyring { Keyring(idOf[k := i], keyOf[i := k]) }
  }

  datatype RuleRow = RuleRow(channels: set<Id>, excluded: set<Id>)
  datatype WindowRow = WindowRow(spec: Window, monitor: Option<Id>)
  datatype EntryRow = EntryRow(monitor: Id, name: string)
  datatype PageRow = PageRow(page: Page, entries: seq<EntryRow>)

  datatype Db = Db(
    channels: map<Id, Channel>, channelKeys: Keyring, defaultId: Option<Id>, quiet: map<Id, Quiet>,
    monitors: map<Id, Monitor>, monitorKeys: Keyring, attached: map<Id, set<Id>>,
    rules: map<TagPair, RuleRow>, windows: seq<WindowRow>, pages: map<string, PageRow>, nextId: int) {
    /** The id the next new object gets. */
    function Fresh(): Id { Id(nextId) }
  }

  ghost predicate IdsBelow(ids: set<Id>, n: int) { forall i :: i in ids ==> i.n < n }

  /** References name objects that are there, ids are handed out once, and rows are as the store
      writes them. */
  ghost predicate Valid(db: Db) {
    && db.channelKeys.Valid() && db.monitorKeys.Valid()
    && db.channelKeys.keyOf.Keys <= db.channels.Keys && db.monitorKeys.keyOf.Keys <= db.monitors.Keys
    && IdsBelow(db.channels.Keys, db.nextId) && IdsBelow(db.monitors.Keys, db.nextId)
    && (db.defaultId.Some? ==> db.defaultId.value in db.channels) && db.quiet.Keys <= db.channels.Keys
    && db.attached.Keys <= db.monitors.Keys && (forall m :: m in db.attached ==> db.attached[m] <= db.channels.Keys)
    && (forall t :: t in db.rules ==> db.rules[t].channels <= db.channels.Keys && db.rules[t].excluded <= db.monitors.Keys)
    && (forall w :: w in db.windows ==> w.monitor.Some? ==> w.monitor.value in db.monitors)
    && (forall s, e :: s in db.pages && e in db.pages[s].entries ==> e.monitor in db.monitors)
    && (forall i :: i in db.monitors ==> PinTimed(db.monitors[i]))
  }

  /** A row without a pin has no time of one. */
  predicate PinTimed(m: Monitor) { m.pin == "" ==> m.pinAt == 0 }

  lemma RowIsPinTimed(db: Db, i: Id)
    requires Valid(db) && i in db.monitors
    ensures PinTimed(db.monitors[i])
  {
  }

  lemma StoredIsPinTimed(m: Monitor)
    ensures PinTimed(Stored(m))
  {
  }

  // ------------------------------------------------------------------------------- the view

  function ChannelsSeen(channels: map<Id, Channel>, ring: Keyring, quiet: map<Id, Quiet>): map<Key, ChannelView> {
    map k | k in ring.idOf && ring.idOf[k] in channels :: ChannelView(channels[ring.idOf[k]], Get(quiet, ring.idOf[k]))
  }

  function DefaultSeen(id: Option<Id>, ring: Keyring): Option<Ref> { if id.Some? then Some(ring.RefOf(id.value)) else None }

  function AttachedTo(attached: map<Id, set<Id>>, m: Id): set<Id> { if m in attached then attached[m] else {} }

  function MonitorsSeen(monitors: map<Id, Monitor>, ring: Keyring, attached: map<Id, set<Id>>, channels: Keyring): map<Key, MonitorView> {
    map k | k in ring.idOf && ring.idOf[k] in monitors ::
      MonitorView(Undated(monitors[ring.idOf[k]]), channels.RefsOf(AttachedTo(attached, ring.idOf[k])))
  }

  function RuleSeen(r: RuleRow, channels: Keyring, monitors: Keyring): RuleView {
    RuleView(channels.RefsOf(r.channels), monitors.RefsOf(r.excluded))
  }

  function RulesSeen(rules: map<TagPair, RuleRow>, channels: Keyring, monitors: Keyring): map<TagPair, RuleView> {
    map t | t in rules :: RuleSeen(rules[t], channels, monitors)
  }

  function WindowSeen(w: WindowRow, monitors: Keyring): Window {
    w.spec.(monitor := if w.monitor.Some? then Some(monitors.RefOf(w.monitor.value)) else None)
  }

  function WindowsSeen(windows: seq<WindowRow>, monitors: Keyring): seq<Window> {
    seq(|windows|, i requires 0 <= i < |windows| => WindowSeen(windows[i], monitors))
  }

  function EntriesSeen(es: seq<EntryRow>, monitors: Keyring): seq<Entry> {
    seq(|es|, i requires 0 <= i < |es| => Entry(monitors.RefOf(es[i].monitor), es[i].name))
  }

  function PageSeen(r: PageRow, monitors: Keyring): PageView { PageView(r.page, EntriesSeen(r.entries, monitors)) }

  function PagesSeen(pages: map<string, PageRow>, monitors: Keyring): map<string, PageView> {
    map s | s in pages :: PageSeen(pages[s], monitors)
  }

  /** The instance as a configuration file can know it. */
  function Seen(db: Db): View {
    View(ChannelsSeen(db.channels, db.channelKeys, db.quiet), DefaultSeen(db.defaultId, db.channelKeys),
         MonitorsSeen(db.monitors, db.monitorKeys, db.attached, db.channelKeys),
         RulesSeen(db.rules, db.channelKeys, db.monitorKeys),
         WindowsSeen(db.windows, db.monitorKeys), PagesSeen(db.pages, db.monitorKeys))
  }

  // ------------------------------------------------------- a key handed out shows once

  method AnyOf(s: set<Id>) returns (i: Id)
    requires s != {}
    ensures i in s
  {
    i :| i in s;
  }

  lemma TakenBack<V>(m: map<Id, V>, i: Id, v: V)
    requires i !in m
    ensures m[i := v] - {i} == m
  {
  }

  lemma AddValid(a: Keyring, k: Key, i: Id)
    requires a.Valid() && k !in a.idOf && i !in a.keyOf
    ensures a.Add(k, i).Valid()
  {
  }

  lemma RefsUnchanged(a: Keyring, k: Key, i: Id, ids: set<Id>)
    requires i !in ids
    ensures a.Add(k, i).RefsOf(ids) == a.RefsOf(ids)
  {
    forall j | j in ids ensures a.Add(k, i).RefOf(j) == a.RefOf(j) {}
  }

  lemma AttachedUnchanged(monitors: map<Id, Monitor>, ring: Keyring, attached: map<Id, set<Id>>, a: Keyring, k: Key, i: Id)
    requires forall m :: m in attached ==> i !in attached[m]
    ensures MonitorsSeen(monitors, ring, attached, a.Add(k, i)) == MonitorsSeen(monitors, ring, attached, a)
  {
    forall m ensures a.Add(k, i).RefsOf(AttachedTo(attached, m)) == a.RefsOf(AttachedTo(attached, m)) {
      RefsUnchanged(a, k, i, AttachedTo(attached, m));
    }
  }

  lemma RuleChannelsUnchanged(rules: map<TagPair, RuleRow>, a: Keyring, k: Key, i: Id, monitors: Keyring)
    requires forall t :: t in rules ==> i !in rules[t].channels
    ensures RulesSeen(rules, a.Add(k, i), monitors) == RulesSeen(rules, a, monitors)
  {
    forall t | t in rules ensures RuleSeen(rules[t], a.Add(k, i), monitors) == RuleSeen(rules[t], a, monitors) {
      RefsUnchanged(a, k, i, rules[t].channels);
    }
  }

  lemma RuleExclusionsUnchanged(rules: map<TagPair, RuleRow>, channels: Keyring, a: Keyring, k: Key, i: Id)
    requires forall t :: t in rules ==> i !in rules[t].excluded
    ensures RulesSeen(rules, channels, a.Add(k, i)) == RulesSeen(rules, channels, a)
  {
    forall t | t in rules ensures RuleSeen(rules[t], channels, a.Add(k, i)) == RuleSeen(rules[t], channels, a) {
      RefsUnchanged(a, k, i, rules[t].excluded);
    }
  }

  lemma WindowsUnchanged(windows: seq<WindowRow>, a: Keyring, k: Key, i: Id)
    requires forall w :: w in windows ==> w.monitor != Some(i)
    ensures WindowsSeen(windows, a.Add(k, i)) == WindowsSeen(windows, a)
  {
    forall j | 0 <= j < |windows| ensures WindowSeen(windows[j], a.Add(k, i)) == WindowSeen(windows[j], a) {
      assert windows[j] in windows;
    }
  }

  lemma EntriesUnchanged(es: seq<EntryRow>, a: Keyring, k: Key, i: Id)
    requires forall e :: e in es ==> e.monitor != i
    ensures EntriesSeen(es, a.Add(k, i)) == EntriesSeen(es, a)
  {
    forall j | 0 <= j < |es| ensures a.Add(k, i).RefOf(es[j].monitor) == a.RefOf(es[j].monitor) {
      assert es[j] in es;
    }
  }

  lemma PagesUnchanged(pages: map<string, PageRow>, a: Keyring, k: Key, i: Id)
    requires forall s, e :: s in pages && e in pages[s].entries ==> e.monitor != i
    ensures PagesSeen(pages, a.Add(k, i)) == PagesSeen(pages, a)
  {
    forall s | s in pages ensures PageSeen(pages[s], a.Add(k, i)) == PageSeen(pages[s], a) {
      EntriesUnchanged(pages[s].entries, a, k, i);
    }
  }

  lemma FreshInRing(ring: Keyring, i: Id)
    requires ring.Valid() && i !in ring.keyOf
    ensures forall k :: k in ring.idOf ==> ring.idOf[k] != i
  {
  }

  lemma NewChannelRow(channels: map<Id, Channel>, ring: Keyring, quiet: map<Id, Quiet>, k: Key, i: Id, c: Channel)
    requires (forall j :: j in ring.idOf ==> ring.idOf[j] != i) && i !in quiet
    ensures ChannelsSeen(channels[i := c], ring.Add(k, i), quiet) == ChannelsSeen(channels, ring, quiet)[k := ChannelView(c, None)]
  {
  }

  lemma NewMonitorRow(monitors: map<Id, Monitor>, ring: Keyring, attached: map<Id, set<Id>>, channels: Keyring, k: Key, i: Id, m: Monitor)
    requires (forall j :: j in ring.idOf ==> ring.idOf[j] != i) && i !in attached
    ensures MonitorsSeen(monitors[i := m], ring.Add(k, i), attached, channels)
              == MonitorsSeen(monitors, ring, attached, channels)[k := MonitorView(Undated(m), {})]
  {
    hide Undated, Keyring.RefsOf;
    NoRefs(channels);
  }

  lemma NoRefs(ring: Keyring)
    ensures ring.RefsOf({}) == {}
  {
  }

  function WithChannel(db: Db, k: Key, c: Channel): Db {
    db.(channels := db.channels[db.Fresh() := c], channelKeys := db.channelKeys.Add(k, db.Fresh()), nextId := db.nextId + 1)
  }

  function WithMonitor(db: Db, k: Key, m: Monitor): Db {
    db.(monitors := db.monitors[db.Fresh() := m], monitorKeys := db.monitorKeys.Add(k, db.Fresh()), nextId := db.nextId + 1)
  }

  lemma NewChannelValid(db: Db, k: Key, c: Channel)
    requires Valid(db) && k !in db.channelKeys.idOf
    ensures Valid(WithChannel(db, k, c))
  {
    AddValid(db.channelKeys, k, db.Fresh());
  }

  lemma NextIdUnreferenced(db: Db)
    requires Valid(db)
    ensures db.channelKeys.Valid() && db.Fresh() !in db.channelKeys.keyOf && db.Fresh() !in db.quiet && db.defaultId != Some(db.Fresh())
    ensures forall m :: m in db.attached ==> db.Fresh() !in db.attached[m]
    ensures forall t :: t in db.rules ==> db.Fresh() !in db.rules[t].channels
  {
  }

  /** A new channel and its key show as one new object; nothing else in the view moves. */
  lemma NewChannelSeen(db: Db, k: Key, c: Channel)
    requires Valid(db) && k !in db.channelKeys.idOf
    ensures Seen(WithChannel(db, k, c)) == Seen(db).(channels := Seen(db).channels[k := ChannelView(c, None)])
  {
    hide Valid, Keyring.Valid, ChannelsSeen, MonitorsSeen, RulesSeen, WindowsSeen, PagesSeen, DefaultSeen, Keyring.Add;
    var i := db.Fresh();
    NextIdUnreferenced(db);
    FreshInRing(db.channelKeys, i);
    AttachedUnchanged(db.monitors, db.monitorKeys, db.attached, db.channelKeys, k, i);
    RuleChannelsUnchanged(db.rules, db.channelKeys, k, i, db.monitorKeys);
    NewChannelRow(db.channels, db.channelKeys, db.quiet, k, i, c);
    DefaultStays(db.defaultId, db.channelKeys, k, i);
  }

  lemma DefaultStays(id: Option<Id>, ring: Keyring, k: Key, i: Id)
    requires id != Some(i)
    ensures DefaultSeen(id, ring.Add(k, i)) == DefaultSeen(id, ring)
  {
  }

  lemma NewMonitorValid(db: Db, k: Key, m: Monitor)
    requires Valid(db) && k !in db.monitorKeys.idOf && PinTimed(m)
    ensures Valid(WithMonitor(db, k, m))
  {
    AddValid(db.monitorKeys, k, db.Fresh());
  }

  lemma NewMonitorSeen(db: Db, k: Key, m: Monitor)
    requires Valid(db) && k !in db.monitorKeys.idOf
    ensures Seen(WithMonitor(db, k, m)) == Seen(db).(monitors := Seen(db).monitors[k := MonitorView(Undated(m), {})])
  {
    var i := db.Fresh();
    FreshInRing(db.monitorKeys, i);
    RuleExclusionsUnchanged(db.rules, db.channelKeys, db.monitorKeys, k, i);
    WindowsUnchanged(db.windows, db.monitorKeys, k, i);
    PagesUnchanged(db.pages, db.monitorKeys, k, i);
    NewMonitorRow(db.monitors, db.monitorKeys, db.attached, db.channelKeys, k, i, m);
  }

  // --------------------------------------------------------------- a keyed object changes

  lemma ChannelRowSeen(channels: map<Id, Channel>, ring: Keyring, quiet: map<Id, Quiet>, k: Key, c: Channel)
    requires ring.Valid() && k in ring.idOf && ring.idOf[k] in channels
    ensures ChannelsSeen(channels[ring.idOf[k] := c], ring, quiet)
              == ChannelsSeen(channels, ring, quiet)[k := ChannelView(c, Get(quiet, ring.idOf[k]))]
  {
  }

  lemma QuietRowSeen(channels: map<Id, Channel>, ring: Keyring, quiet: map<Id, Quiet>, k: Key, after: map<Id, Quiet>)
    requires ring.Valid() && k in ring.idOf && ring.idOf[k] in channels
    requires forall i :: i != ring.idOf[k] ==> Get(after, i) == Get(quiet, i)
    ensures ChannelsSeen(channels, ring, after)
              == ChannelsSeen(channels, ring, quiet)[k := ChannelView(channels[ring.idOf[k]], Get(after, ring.idOf[k]))]
  {
    forall j | j in ring.idOf && j != k ensures Get(after, ring.idOf[j]) == Get(quiet, ring.idOf[j]) {
      var i := ring.idOf[j];
      assert ring.keyOf[i] == j && ring.keyOf[ring.idOf[k]] == k;
      assert i != ring.idOf[k];
    }
  }

  lemma AttachedRowSeen(monitors: map<Id, Monitor>, ring: Keyring, attached: map<Id, set<Id>>, channels: Keyring, k: Key, ids: set<Id>)
    requires ring.Valid() && k in ring.idOf && ring.idOf[k] in monitors
    ensures MonitorsSeen(monitors, ring, attached[ring.idOf[k] := ids], channels)
              == MonitorsSeen(monitors, ring, attached, channels)[k := MonitorView(Undated(monitors[ring.idOf[k]]), channels.RefsOf(ids))]
  {
  }

  // The same of the whole instance, one lemma a store call.

  lemma KeyedChannel(db: Db, k: Key)
    requires Valid(db) && k in db.channelKeys.idOf
    ensures k in Seen(db).channels && db.channelKeys.idOf[k] in db.channels
    ensures Seen(db).channels[k] == ChannelView(db.channels[db.channelKeys.idOf[k]], Get(db.quiet, db.channelKeys.idOf[k]))
  {
  }

  lemma NextIdUnseen(db: Db)
    requires Valid(db)
    ensures db.Fresh() !in db.channels && db.Fresh() !in db.channelKeys.keyOf
    ensures db.Fresh() !in db.monitors && db.Fresh() !in db.monitorKeys.keyOf
    ensures Valid(db.(nextId := db.nextId + 1)) && Seen(db.(nextId := db.nextId + 1)) == Seen(db)
  {
  }

  lemma KeyIdsExist(db: Db)
    requires Valid(db)
    ensures forall k :: k in db.channelKeys.idOf ==> db.channelKeys.idOf[k] in db.channels
    ensures forall k :: k in db.monitorKeys.idOf ==> db.monitorKeys.idOf[k] in db.monitors
  {
  }

  lemma ChannelKeysSeen(channels: map<Id, Channel>, ring: Keyring, quiet: map<Id, Quiet>)
    requires forall k :: k in ring.idOf ==> ring.idOf[k] in channels
    ensures ChannelsSeen(channels, ring, quiet).Keys == ring.idOf.Keys
  {
  }

  lemma MonitorKeysSeen(monitors: map<Id, Monitor>, ring: Keyring, attached: map<Id, set<Id>>, channels: Keyring)
    requires forall k :: k in ring.idOf ==> ring.idOf[k] in monitors
    ensures MonitorsSeen(monitors, ring, attached, channels).Keys == ring.idOf.Keys
  {
  }

  /** A view names exactly the objects that have a key. */
  lemma KeysSeen(db: Db)
    requires Valid(db)
    ensures Seen(db).channels.Keys == db.channelKeys.idOf.Keys && Seen(db).monitors.Keys == db.monitorKeys.idOf.Keys
  {
    hide Valid;
    KeyIdsExist(db);
    ChannelKeysSeen(db.channels, db.channelKeys, db.quiet);
    MonitorKeysSeen(db.monitors, db.monitorKeys, db.attached, db.channelKeys);
  }

  lemma ChannelStaysValid(db: Db, i: Id, c: Channel)
    requires Valid(db) && i in db.channels
    ensures Valid(db.(channels := db.channels[i := c]))
  {
    assert db.channels[i := c].Keys == db.channels.Keys;
  }

  lemma MonitorStaysValid(db: Db, i: Id, m: Monitor)
    requires Valid(db) && i in db.monitors && PinTimed(m)
    ensures Valid(db.(monitors := db.monitors[i := m]))
  {
    assert db.monitors[i := m].Keys == db.monitors.Keys;
  }

  lemma AttachedStaysValid(db: Db, i: Id, ids: set<Id>)
    requires Valid(db) && i in db.monitors && ids <= db.channels.Keys
    ensures Valid(db.(attached := db.attached[i := ids]))
  {
  }

  lemma QuietStaysValid(db: Db, k: Id, quiet: map<Id, Quiet>)
    requires Valid(db) && k in db.channels && forall i :: i != k ==> Get(quiet, i) == Get(db.quiet, i)
    ensures Valid(db.(quiet := quiet))
  {
    forall i | i in quiet ensures i in db.channels {
      if i != k { assert Get(quiet, i) == Get(db.quiet, i); }
    }
  }

  lemma RingsValid(db: Db)
    requires Valid(db)
    ensures db.channelKeys.Valid() && db.monitorKeys.Valid()
  {
  }

  lemma ChannelUpdated(db: Db, k: Key, c: Channel)
    requires Valid(db) && k in db.channelKeys.idOf && k in Seen(db).channels
    ensures var after := db.(channels := db.channels[db.channelKeys.idOf[k] := c]);
            && Valid(after)
            && Seen(after) == Seen(db).(channels := Seen(db).channels[k := Seen(db).channels[k].(channel := c)])
  {
    hide Valid;
    KeyedChannel(db, k);
    RingsValid(db);
    ChannelStaysValid(db, db.channelKeys.idOf[k], c);
    ChannelRowSeen(db.channels, db.channelKeys, db.quiet, k, c);
  }

  lemma QuietUpdated(db: Db, k: Key, quiet: map<Id, Quiet>)
    requires Valid(db) && k in db.channelKeys.idOf && k in Seen(db).channels
    requires forall i :: i != db.channelKeys.idOf[k] ==> Get(quiet, i) == Get(db.quiet, i)
    ensures var i, after := db.channelKeys.idOf[k], db.(quiet := quiet);
            && Valid(after)
            && Seen(after) == Seen(db).(channels := Seen(db).channels[k := Seen(db).channels[k].(quiet := Get(quiet, i))])
  {
    hide Valid;
    KeyedChannel(db, k);
    RingsValid(db);
    QuietStaysValid(db, db.channelKeys.idOf[k], quiet);
    QuietRowSeen(db.channels, db.channelKeys, db.quiet, k, quiet);
  }

  lemma DefaultUpdated(db: Db, k: Key)
    requires Valid(db) && k in db.channelKeys.idOf
    ensures var after := db.(defaultId := Some(db.channelKeys.idOf[k]));
            Valid(after) && Seen(after) == Seen(db).(defaultChannel := Some(Keyed(k)))
  {
  }

  lemma KeyedMonitor(db: Db, k: Key)
    requires Valid(db) && k in db.monitorKeys.idOf
    ensures k in Seen(db).monitors && db.monitorKeys.idOf[k] in db.monitors
    ensures var i := db.monitorKeys.idOf[k];
            Seen(db).monitors[k] == MonitorView(Undated(db.monitors[i]), db.channelKeys.RefsOf(AttachedTo(db.attached, i)))
  {
  }

  lemma MonitorUpdated(db: Db, k: Key, m: Monitor)
    requires PinTimed(m) && Valid(db) && k in db.monitorKeys.idOf && k in Seen(db).monitors
    ensures var after := db.(monitors := db.monitors[db.monitorKeys.idOf[k] := m]);
            && Valid(after)
            && Seen(after) == Seen(db).(monitors := Seen(db).monitors[k := Seen(db).monitors[k].(monitor := Undated(m))])
  {
    hide Valid, Undated;
    KeyedMonitor(db, k);
    RingsValid(db);
    MonitorStaysValid(db, db.monitorKeys.idOf[k], m);
    MonitorOnlySeen(db.monitors, db.monitorKeys, db.attached, db.channelKeys, k, m);
  }

  lemma MonitorOnlySeen(monitors: map<Id, Monitor>, ring: Keyring, attached: map<Id, set<Id>>, channels: Keyring, k: Key, m: Monitor)
    requires ring.Valid() && k in ring.idOf && ring.idOf[k] in monitors
    ensures MonitorsSeen(monitors[ring.idOf[k] := m], ring, attached, channels)
              == MonitorsSeen(monitors, ring, attached, channels)[
                   k := MonitorView(Undated(m), channels.RefsOf(AttachedTo(attached, ring.idOf[k])))]
  {
  }

  lemma AttachedUpdated(db: Db, k: Key, ids: set<Id>)
    requires Valid(db) && k in db.monitorKeys.idOf && k in Seen(db).monitors && ids <= db.channels.Keys
    ensures var after := db.(attached := db.attached[db.monitorKeys.idOf[k] := ids]);
            && Valid(after)
            && Seen(after) == Seen(db).(monitors := Seen(db).monitors[k := Seen(db).monitors[k].(channels := db.channelKeys.RefsOf(ids))])
  {
    hide Valid, Undated;
    KeyedMonitor(db, k);
    RingsValid(db);
    AttachedStaysValid(db, db.monitorKeys.idOf[k], ids);
    AttachedRowSeen(db.monitors, db.monitorKeys, db.attached, db.channelKeys, k, ids);
  }

  lemma RuleUpdated(db: Db, t: TagPair, r: RuleRow)
    requires Valid(db) && r.channels <= db.channels.Keys && r.excluded <= db.monitors.Keys
    ensures var after := db.(rules := db.rules[t := r]);
            Valid(after) && Seen(after) == Seen(db).(rules := Seen(db).rules[t := RuleSeen(r, db.channelKeys, db.monitorKeys)])
  {
    RuleRowSeen(db.rules, db.channelKeys, db.monitorKeys, t, r);
  }

  lemma RulesExist(db: Db, t: TagPair)
    requires Valid(db)
    ensures db.monitorKeys.Valid() && Seen(db).rules.Keys == db.rules.Keys
    ensures t in db.rules ==> Seen(db).rules[t] == RuleSeen(db.rules[t], db.channelKeys, db.monitorKeys)
    ensures t in db.rules ==> db.rules[t].channels <= db.channels.Keys && db.rules[t].excluded <= db.monitors.Keys
  {
  }

  lemma RuleRowSeen(rules: map<TagPair, RuleRow>, channels: Keyring, monitors: Keyring, t: TagPair, r: RuleRow)
    ensures RulesSeen(rules[t := r], channels, monitors) == RulesSeen(rules, channels, monitors)[t := RuleSeen(r, channels, monitors)]
  {
  }

  lemma WindowAdded(db: Db, w: WindowRow)
    requires Valid(db) && (w.monitor.Some? ==> w.monitor.value in db.monitors)
    ensures var after := db.(windows := db.windows + [w]);
            Valid(after) && Seen(after) == Seen(db).(windows := Seen(db).windows + [WindowSeen(w, db.monitorKeys)])
  {
    assert WindowsSeen(db.windows + [w], db.monitorKeys) == WindowsSeen(db.windows, db.monitorKeys) + [WindowSeen(w, db.monitorKeys)];
  }

  lemma WindowCount(db: Db)
    ensures |Seen(db).windows| == |db.windows|
  {
  }

  lemma PageUpdated(db: Db, s: string, r: PageRow)
    requires Valid(db) && forall e :: e in r.entries ==> e.monitor in db.monitors
    ensures var after := db.(pages := db.pages[s := r]);
            Valid(after) && Seen(after) == Seen(db).(pages := Seen(db).pages[s := PageSeen(r, db.monitorKeys)])
  {
    PageRowSeen(db.pages, db.monitorKeys, s, r);
  }

  lemma PageExists(db: Db, s: string)
    requires Valid(db)
    ensures db.monitorKeys.Valid() && Seen(db).pages.Keys == db.pages.Keys
    ensures s in db.pages ==> Seen(db).pages[s] == PageSeen(db.pages[s], db.monitorKeys)
    ensures s in db.pages ==> forall e :: e in db.pages[s].entries ==> e.monitor in db.monitors
    ensures forall k :: k in db.monitorKeys.idOf ==> db.monitorKeys.idOf[k] in db.monitors
  {
  }

  lemma PageRowSeen(pages: map<string, PageRow>, monitors: Keyring, s: string, r: PageRow)
    ensures PagesSeen(pages[s := r], monitors) == PagesSeen(pages, monitors)[s := PageSeen(r, monitors)]
  {
  }

  lemma RefsOfKeys(ring: Keyring, keys: seq<Key>, ids: set<Id>)
    requires ring.Valid() && (forall k :: k in keys ==> k in ring.idOf) && ids == (set k | k in keys :: ring.idOf[k])
    ensures ring.RefsOf(ids) == Refs(keys)
  {
    forall r | r in Refs(keys) ensures r in ring.RefsOf(ids) {
      var k :| k in keys && r == Keyed(k);
      assert ring.idOf[k] in ids && ring.RefOf(ring.idOf[k]) == r;
    }
    forall r | r in ring.RefsOf(ids) ensures r in Refs(keys) {
      var i :| i in ids && r == ring.RefOf(i);
      var k :| k in keys && i == ring.idOf[k];
    }
  }

  lemma KeyedIdsExist(db: Db, keys: seq<Key>, ids: set<Id>)
    requires Valid(db) && (forall k :: k in keys ==> k in db.channelKeys.idOf) && ids == (set k | k in keys :: db.channelKeys.idOf[k])
    ensures ids <= db.channels.Keys && db.channelKeys.RefsOf(ids) == Refs(keys)
  {
    RefsOfKeys(db.channelKeys, keys, ids);
  }

  lemma KeyedMonitorsExist(db: Db, keys: seq<Key>, ids: set<Id>)
    requires Valid(db) && (forall k :: k in keys ==> k in db.monitorKeys.idOf) && ids == (set k | k in keys :: db.monitorKeys.idOf[k])
    ensures ids <= db.monitors.Keys && db.monitorKeys.RefsOf(ids) == Refs(keys)
  {
    RefsOfKeys(db.monitorKeys, keys, ids);
  }

  lemma RefsInjective(ring: Keyring, a: set<Id>, b: set<Id>)
    requires ring.Valid() && ring.RefsOf(a) == ring.RefsOf(b)
    ensures a == b
  {
    forall i ensures i in a <==> i in b {
      if i in a { RefInjective(ring, i, b); }
      if i in b { RefInjective(ring, i, a); }
    }
  }

  /** What lies between two sets of ids shows between their references. */
  lemma RefsBetween(ring: Keyring, a: set<Id>, b: set<Id>, ids: set<Id>)
    requires ring.Valid() && (forall i :: i in a && i in b ==> i in ids) && (forall i :: i in ids ==> i in a || i in b)
    ensures ring.RefsOf(a) * ring.RefsOf(b) <= ring.RefsOf(ids) <= ring.RefsOf(a) + ring.RefsOf(b)
  {
    forall r | r in ring.RefsOf(a) && r in ring.RefsOf(b) ensures r in ring.RefsOf(ids) {
      var i :| i in a && r == ring.RefOf(i);
      RefInjective(ring, i, b);
    }
  }

  lemma RefInjective(ring: Keyring, i: Id, ids: set<Id>)
    requires ring.Valid() && ring.RefOf(i) in ring.RefsOf(ids)
    ensures i in ids
  {
    var j :| j in ids && ring.RefOf(j) == ring.RefOf(i);
    assert i == j;
  }
}
