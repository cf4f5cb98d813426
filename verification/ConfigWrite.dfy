/** Writing an instance to a file (exportConfig, internal/api/config_export.go; exportStatusPages,
    config_status_pages.go), once every channel and monitor has its key. */
module ConfigWrite {
  import opened Prelude
  import opened MonitorRules
  import opened KeyedMerge
  import opened ConfigModel
  import opened ConfigChannels
  import opened ConfigMonitors
  import opened ConfigOwnMonitor
  import opened ConfigRules
  import opened ConfigPages
  import opened ConfigSpec
  import opened ConfigExport
  import S = ConfigStore

  /** Every object has a key, and none is empty (assignKeys has run). */
  ghost predicate FullyKeyed(db: S.Db) {
    && db.channels.Keys <= db.channelKeys.keyOf.Keys && db.monitors.Keys <= db.monitorKeys.keyOf.Keys
    && (forall k :: k in db.monitorKeys.idOf ==> k != "")
  }

  // ------------------------------------------------------------------------- references

  /** The keys of some objects, each once. */
  method KeysOf(ring: S.Keyring, ids: set<S.Id>) returns (keys: seq<Key>)
    requires ring.Valid() && forall i :: i in ids ==> i in ring.keyOf
    ensures Refs(keys) == ring.RefsOf(ids)
  {
    var left := ids;
    keys := [];
    while left != {}
      invariant forall i :: i in left ==> i in ids
      invariant forall k :: k in keys ==> k in ring.idOf && ring.idOf[k] in ids && ring.idOf[k] !in left
      invariant forall i :: i in ids && i !in left ==> ring.keyOf[i] in keys
      decreases |left|
    {
      var i := S.AnyOf(left);
      left := left - {i};
      keys := keys + [ring.keyOf[i]];
    }
    KeysAreRefs(ring, ids, keys);
  }

  lemma KeysAreRefs(ring: S.Keyring, ids: set<S.Id>, keys: seq<Key>)
    requires ring.Valid() && forall i :: i in ids ==> i in ring.keyOf && ring.keyOf[i] in keys
    requires forall k :: k in keys ==> k in ring.idOf && ring.idOf[k] in ids
    ensures Refs(keys) == ring.RefsOf(ids)
  {
    forall r | r in Refs(keys) ensures r in ring.RefsOf(ids) {
      var k :| k in keys && r == Keyed(k);
      assert ring.RefOf(ring.idOf[k]) == r;
    }
    forall r | r in ring.RefsOf(ids) ensures r in Refs(keys) {
      var i :| i in ids && r == ring.RefOf(i);
      assert r == Keyed(ring.keyOf[i]);
    }
  }

  // ------------------------------------------------------------------------ the sections

  /** Each keyed object of a section written once: out[i] is written from the object of its key. */
  ghost predicate WritesAll<E(!new)>(out: seq<E>, keyOf: E -> Key, ring: S.Keyring, left: set<S.Id>, good: E -> bool) {
    && (forall i :: 0 <= i < |out| ==>
          keyOf(out[i]) in ring.idOf && ring.idOf[keyOf(out[i])] !in left && good(out[i]))
    && Distinct(keyOf, out)
    && (forall id :: id in ring.keyOf && id !in left ==> exists i :: 0 <= i < |out| && keyOf(out[i]) == ring.keyOf[id])
  }

  lemma WritesNone<E(!new)>(keyOf: E -> Key, ring: S.Keyring, left: set<S.Id>, good: E -> bool)
    requires ring.keyOf.Keys <= left
    ensures WritesAll([], keyOf, ring, left, good)
  {
  }

  lemma WritesOneMore<E(!new)>(out: seq<E>, keyOf: E -> Key, ring: S.Keyring, left: set<S.Id>, good: E -> bool, id: S.Id, x: E)
    requires ring.Valid() && WritesAll(out, keyOf, ring, left, good) && id in left && id in ring.keyOf
    requires keyOf(x) == ring.keyOf[id] && good(x)
    ensures WritesAll(out + [x], keyOf, ring, left - {id}, good)
  {
    var next := out + [x];
    forall j | j in ring.keyOf && j !in left - {id} ensures exists i :: 0 <= i < |next| && keyOf(next[i]) == ring.keyOf[j] {
      if j == id {
        assert next[|out|] == x;
      } else {
        var i :| 0 <= i < |out| && keyOf(out[i]) == ring.keyOf[j];
        assert next[i] == out[i];
      }
    }
  }

  method WriteChannels(p: Platform, db: S.Db) returns (out: seq<ChannelEntry>)
    requires S.Valid(db) && FullyKeyed(db)
    ensures WritesAll(out, ChannelKey(), db.channelKeys, {}, x => WritesChannel(p, S.Seen(db), x))
  {
    hide S.Valid, S.Seen, WritesAll, ExportedConfig, FullyKeyed;
    ghost var good := x => WritesChannel(p, S.Seen(db), x);
    S.RingsValid(db);
    out := [];
    var left := db.channels.Keys;
    KeyedObjects(db);
    WritesNone(ChannelKey(), db.channelKeys, left, good);
    while left != {}
      invariant left <= db.channels.Keys && WritesAll(out, ChannelKey(), db.channelKeys, left, good)
      decreases |left|
    {
      var id := S.AnyOf(left);
      var key, c := db.channelKeys.keyOf[id], db.channels[id];
      var config := ExportChannelConfig(p, c);
      var x := ChannelEntry(key, c.name, Some(c.typ), Some(c.enabled), db.defaultId == Some(id), config,
                            if id in db.quiet then QuietWindow(db.quiet[id]) else QuietNull);
      ChannelWritten(p, db, id, x);
      WritesOneMore(out, ChannelKey(), db.channelKeys, left, good, id, x);
      out := out + [x];
      left := left - {id};
    }
  }

  lemma KeyedObjects(db: S.Db)
    requires S.Valid(db) && FullyKeyed(db)
    ensures db.channelKeys.keyOf.Keys == db.channels.Keys && db.monitorKeys.keyOf.Keys == db.monitors.Keys
  {
  }

  lemma ChannelSeenAt(db: S.Db, id: S.Id)
    requires S.Valid(db) && FullyKeyed(db) && id in db.channels
    ensures var key := db.channelKeys.keyOf[id];
      && key in S.Seen(db).channels && S.Seen(db).channels[key] == ChannelView(db.channels[id], Get(db.quiet, id))
      && (S.Seen(db).defaultChannel == Some(Keyed(key)) <==> db.defaultId == Some(id))
  {
    if db.defaultId.Some? {
      var d := db.defaultId.value;
      assert db.channelKeys.RefOf(d) == Keyed(db.channelKeys.keyOf[id]) <==> d == id;
    }
  }

  lemma ChannelWritten(p: Platform, db: S.Db, id: S.Id, x: ChannelEntry)
    requires S.Valid(db) && FullyKeyed(db) && id in db.channels && id in db.channelKeys.keyOf
    requires var c := db.channels[id];
      x == ChannelEntry(db.channelKeys.keyOf[id], c.name, Some(c.typ), Some(c.enabled), db.defaultId == Some(id), ExportedConfig(p, c),
                        if id in db.quiet then QuietWindow(db.quiet[id]) else QuietNull)
    ensures WritesChannel(p, S.Seen(db), x)
  {
    hide ExportedConfig, S.Seen, S.Valid, FullyKeyed;
    ChannelSeenAt(db, id);
  }

  method WriteMonitors(p: Platform, db: S.Db) returns (out: seq<MonitorEntry>)
    requires S.Valid(db) && FullyKeyed(db)
    ensures WritesAll(out, MonitorKey(), db.monitorKeys, {}, x => WritesMonitor(p, S.Seen(db), x))
  {
    hide S.Valid, S.Seen, WritesAll, Exported, FullyKeyed;
    ghost var good := x => WritesMonitor(p, S.Seen(db), x);
    S.RingsValid(db);
    out := [];
    var left := db.monitors.Keys;
    KeyedObjects(db);
    WritesNone(MonitorKey(), db.monitorKeys, left, good);
    while left != {}
      invariant left <= db.monitors.Keys && WritesAll(out, MonitorKey(), db.monitorKeys, left, good)
      decreases |left|
    {
      var id := S.AnyOf(left);
      var key, m := db.monitorKeys.keyOf[id], db.monitors[id];
      AttachedKeyed(db, id);
      var channels := KeysOf(db.channelKeys, S.AttachedTo(db.attached, id));
      var x := OwnEntry(p.rules, m, key, Some(channels));
      MonitorWritten(p, db, id, x, channels);
      WritesOneMore(out, MonitorKey(), db.monitorKeys, left, good, id, x);
      out := out + [x];
      left := left - {id};
    }
  }

  lemma AttachedKeyed(db: S.Db, id: S.Id)
    requires S.Valid(db) && FullyKeyed(db)
    ensures forall c :: c in S.AttachedTo(db.attached, id) ==> c in db.channelKeys.keyOf
  {
  }

  lemma MonitorSeenAt(db: S.Db, id: S.Id)
    requires S.Valid(db) && FullyKeyed(db) && id in db.monitors
    ensures var key := db.monitorKeys.keyOf[id];
      && key in S.Seen(db).monitors
      && S.Seen(db).monitors[key] == MonitorView(Undated(db.monitors[id]), db.channelKeys.RefsOf(S.AttachedTo(db.attached, id)))
  {
    hide Undated;
  }

  lemma MonitorWritten(p: Platform, db: S.Db, id: S.Id, x: MonitorEntry, channels: seq<Key>)
    requires S.Valid(db) && FullyKeyed(db) && id in db.monitors && id in db.monitorKeys.keyOf
    requires Refs(channels) == db.channelKeys.RefsOf(S.AttachedTo(db.attached, id))
    requires x == OwnEntry(p.rules, db.monitors[id], db.monitorKeys.keyOf[id], Some(channels))
    ensures x.key == db.monitorKeys.keyOf[id] && WritesMonitor(p, S.Seen(db), x)
  {
    hide Exported, S.Seen, S.Valid, FullyKeyed, Refs;
    UndatedExport(p.rules, db.monitors[id]);
    MonitorSeenAt(db, id);
  }

  // -------------------------------------------------------------------------------- rules

  /** out[i] is written from the rule of pairs[i], and each rule not left is written once. */
  ghost predicate WritesRules(v: View, out: seq<RuleEntry>, pairs: seq<TagPair>, left: set<TagPair>) {
    && |out| == |pairs| && (forall i :: 0 <= i < |out| ==> pairs[i] !in left && TagPair(out[i].tagKey, out[i].tagValue) == pairs[i] && WritesRule(v, out[i]))
    && (forall i, j :: 0 <= i < j < |pairs| ==> pairs[i] != pairs[j])
    && (forall t :: t in v.rules && t !in left ==> t in pairs)
  }

  method AnyPair(s: set<TagPair>) returns (t: TagPair)
    requires s != {}
    ensures t in s
  {
    t :| t in s;
  }

  method WriteRules(db: S.Db) returns (out: seq<RuleEntry>, ghost pairs: seq<TagPair>)
    requires S.Valid(db) && FullyKeyed(db)
    ensures WritesRules(S.Seen(db), out, pairs, {})
  {
    S.RingsValid(db);
    out, pairs := [], [];
    var left := db.rules.Keys;
    assert S.Seen(db).rules.Keys == left;
    while left != {}
      invariant left <= db.rules.Keys && WritesRules(S.Seen(db), out, pairs, left)
      decreases |left|
    {
      hide S.Valid, S.Seen, WritesRules, WritesRule;
      var t := AnyPair(left);
      RuleKeyed(db, t);
      var channels := KeysOf(db.channelKeys, db.rules[t].channels);
      var exclude := KeysOf(db.monitorKeys, db.rules[t].excluded);
      var x := RuleEntry(t.key, t.value, Some(channels), Some(exclude));
      RuleWritten(db, t, x, channels, exclude);
      OneMoreWritten(S.Seen(db), out, pairs, left, t, x);
      out, pairs, left := out + [x], pairs + [t], left - {t};
    }
  }

  lemma RuleKeyed(db: S.Db, t: TagPair)
    requires S.Valid(db) && FullyKeyed(db) && t in db.rules
    ensures forall c :: c in db.rules[t].channels ==> c in db.channelKeys.keyOf
    ensures forall m :: m in db.rules[t].excluded ==> m in db.monitorKeys.keyOf
  {
  }

  lemma RuleWritten(db: S.Db, t: TagPair, x: RuleEntry, channels: seq<Key>, exclude: seq<Key>)
    requires t in db.rules && x == RuleEntry(t.key, t.value, Some(channels), Some(exclude))
    requires Refs(channels) == db.channelKeys.RefsOf(db.rules[t].channels) && Refs(exclude) == db.monitorKeys.RefsOf(db.rules[t].excluded)
    ensures TagPair(x.tagKey, x.tagValue) == t && WritesRule(S.Seen(db), x)
  {
  }

  lemma OneMoreWritten(v: View, out: seq<RuleEntry>, pairs: seq<TagPair>, left: set<TagPair>, t: TagPair, x: RuleEntry)
    requires WritesRules(v, out, pairs, left) && t in left && TagPair(x.tagKey, x.tagValue) == t && WritesRule(v, x)
    ensures WritesRules(v, out + [x], pairs + [t], left - {t})
  {
    hide WritesRule;
    var next := pairs + [t];
    assert next[|pairs|] == t;
    assert forall i :: 0 <= i < |pairs| ==> next[i] == pairs[i];
  }

  // ------------------------------------------------------------------------------ windows

  /** A one-off window that has ended is history, not configuration. */
  predicate Ended(w: Window, now: int) { w.timezone == "" && w.ends <= now }

  /** Of the first n windows, those that are still to come or repeat, in order. */
  function Live(ws: seq<Window>, n: nat, now: int): seq<Window>
    requires n <= |ws|
  {
    if n == 0 then [] else if Ended(ws[n - 1], now) then Live(ws, n - 1, now) else Live(ws, n - 1, now) + [ws[n - 1]]
  }

  lemma {:induction false} LiveAreThere(ws: seq<Window>, n: nat, now: int)
    requires n <= |ws|
    ensures forall i :: 0 <= i < |Live(ws, n, now)| ==> Live(ws, n, now)[i] in ws
  {
    if n > 0 { LiveAreThere(ws, n - 1, now); }
  }

  /** out writes each of the windows ws, once and in order. */
  ghost predicate WritesEach(out: seq<WindowEntry>, ws: seq<Window>) {
    |out| == |ws| && forall i :: 0 <= i < |out| ==> Writes(out[i], ws[i])
  }

  lemma OneMoreWindow(out: seq<WindowEntry>, ws: seq<Window>, x: WindowEntry, w: Window)
    requires WritesEach(out, ws) && Writes(x, w)
    ensures WritesEach(out + [x], ws + [w])
  {
    hide Writes;
  }

  method WriteWindows(db: S.Db, days: nat -> seq<int>, now: int) returns (out: seq<WindowEntry>)
    requires S.Valid(db) && FullyKeyed(db)
    requires forall i :: 0 <= i < |db.windows| ==> multiset(days(i)) == db.windows[i].spec.weekdays
    ensures WritesEach(out, Live(S.Seen(db).windows, |S.Seen(db).windows|, now))
  {
    hide Writes, ExportedWindow, WritesEach, S.Valid, S.Seen, FullyKeyed;
    out := [];
    ghost var seen := S.Seen(db).windows;
    assert WritesEach(out, []) by { NoneWritten(); }
    WindowCount(db);
    for n := 0 to |db.windows|
      invariant |seen| == |db.windows| && WritesEach(out, Live(seen, n, now))
    {
      var w := db.windows[n];
      WindowShown(db, n);
      if w.spec.timezone == "" && w.spec.ends <= now { continue; }
      var x := ExportedWindow(w.spec.(monitor := if w.monitor.Some? then Some(Keyed(db.monitorKeys.keyOf[w.monitor.value])) else None))
        .(weekdays := days(n));
      WindowWritten(db, n, x, days(n));
      OneMoreWindow(out, Live(seen, n, now), x, seen[n]);
      out := out + [x];
    }
  }

  lemma NoneWritten()
    ensures WritesEach([], [])
  {
  }

  lemma WindowCount(db: S.Db)
    ensures |S.Seen(db).windows| == |db.windows|
  {
  }

  lemma WindowShown(db: S.Db, n: nat)
    requires S.Valid(db) && FullyKeyed(db) && n < |db.windows|
    ensures var w := db.windows[n];
      && |S.Seen(db).windows| == |db.windows| && S.Seen(db).windows[n] == S.WindowSeen(w, db.monitorKeys)
      && (w.monitor.Some? ==> w.monitor.value in db.monitorKeys.keyOf && db.monitorKeys.keyOf[w.monitor.value] != "")
  {
    assert db.windows[n] in db.windows;
  }

  lemma WindowWritten(db: S.Db, n: nat, x: WindowEntry, days: seq<int>)
    requires S.Valid(db) && FullyKeyed(db) && n < |db.windows| && multiset(days) == db.windows[n].spec.weekdays
    requires db.windows[n].monitor.Some? ==> db.windows[n].monitor.value in db.monitorKeys.keyOf
    requires var w := db.windows[n];
      x == ExportedWindow(w.spec.(monitor := if w.monitor.Some? then Some(Keyed(db.monitorKeys.keyOf[w.monitor.value])) else None))
           .(weekdays := days)
    ensures n < |S.Seen(db).windows| && Writes(x, S.Seen(db).windows[n])
  {
    WindowShown(db, n);
    hide S.Valid, S.Seen, FullyKeyed;
  }

  // -------------------------------------------------------------------------------- pages

  ghost predicate WritesPages(v: View, out: seq<PageEntry>, left: set<string>) {
    && (forall i :: 0 <= i < |out| ==> out[i].slug !in left && WritesPage(v, out[i]))
    && (forall i, j :: 0 <= i < j < |out| ==> out[i].slug != out[j].slug)
    && (forall s :: s in v.pages && s !in left ==> exists i :: 0 <= i < |out| && out[i].slug == s)
  }

  method WritePages(db: S.Db) returns (out: seq<PageEntry>)
    requires S.Valid(db) && FullyKeyed(db)
    ensures WritesPages(S.Seen(db), out, {})
  {
    hide S.Valid, S.Seen, WritesPages, WritesPage, FullyKeyed, WrittenFrom;
    out := [];
    var left := db.pages.Keys;
    NoPages(db);
    while left != {}
      invariant left <= db.pages.Keys && WritesPages(S.Seen(db), out, left)
      decreases |left|
    {
      var slug :| slug in left;
      EntriesKeyed(db, slug);
      var list := WriteEntries(db.monitorKeys, db.pages[slug].entries);
      var x := ExportedPage(slug, S.PageSeen(db.pages[slug], db.monitorKeys), list);
      PageWritten(db, slug, x, list);
      OneMorePage(S.Seen(db), out, left, x);
      out, left := out + [x], left - {slug};
    }
  }

  lemma NoPages(db: S.Db)
    ensures WritesPages(S.Seen(db), [], db.pages.Keys)
  {
  }

  lemma EntriesKeyed(db: S.Db, slug: string)
    requires S.Valid(db) && FullyKeyed(db) && slug in db.pages
    ensures forall e :: e in db.pages[slug].entries ==> e.monitor in db.monitorKeys.keyOf
  {
  }

  /** The monitors of a page, each with the name it is shown under. */
  method WriteEntries(ring: S.Keyring, entries: seq<S.EntryRow>) returns (list: seq<PageMonitor>)
    requires forall e :: e in entries ==> e.monitor in ring.keyOf
    ensures WrittenFrom(list, S.EntriesSeen(entries, ring))
  {
    list := [];
    for i := 0 to |entries|
      invariant |list| == i && forall j :: 0 <= j < i ==> Entry(Keyed(list[j].monitor), list[j].name) == S.EntriesSeen(entries, ring)[j]
    {
      assert entries[i] in entries;
      list := list + [PageMonitor(ring.keyOf[entries[i].monitor], entries[i].name)];
    }
  }

  lemma PageWritten(db: S.Db, slug: string, x: PageEntry, list: seq<PageMonitor>)
    requires slug in db.pages && WrittenFrom(list, S.EntriesSeen(db.pages[slug].entries, db.monitorKeys))
    requires x == ExportedPage(slug, S.PageSeen(db.pages[slug], db.monitorKeys), list)
    ensures x.slug == slug && WritesPage(S.Seen(db), x)
  {
    hide S.EntriesSeen, WrittenFrom;
    assert S.Seen(db).pages[slug] == S.PageSeen(db.pages[slug], db.monitorKeys);
  }

  lemma OneMorePage(v: View, out: seq<PageEntry>, left: set<string>, x: PageEntry)
    requires WritesPages(v, out, left) && x.slug in left && WritesPage(v, x)
    ensures WritesPages(v, out + [x], left - {x.slug})
  {
    hide WritesPage;
    var next := out + [x];
    forall s | s in v.pages && s !in left - {x.slug} ensures exists i :: 0 <= i < |next| && next[i].slug == s {
      if s == x.slug {
        assert next[|out|] == x;
      } else {
        var i :| 0 <= i < |out| && out[i].slug == s;
        assert next[i] == out[i];
      }
    }
  }

  // ---------------------------------------------------------------------------- the whole

  /** Every object of the instance is in the file. Of the windows these are the ones that have not ended, each once
      and in order. */
  ghost predicate Complete(v: View, doc: Document, now: int) {
    && (forall k :: k in v.channels ==> exists i :: 0 <= i < |doc.channels| && doc.channels[i].key == k)
    && (forall k :: k in v.monitors ==> exists i :: 0 <= i < |doc.monitors| && doc.monitors[i].key == k)
    && (forall t :: t in v.rules ==> exists i :: 0 <= i < |doc.rules| && TagPair(doc.rules[i].tagKey, doc.rules[i].tagValue) == t)
    && WritesEach(doc.windows, Live(v.windows, |v.windows|, now))
    && (forall s :: s in v.pages ==> exists i :: 0 <= i < |doc.pages| && doc.pages[i].slug == s)
  }

  /** Every key of the ring is written. */
  lemma AllKeysWritten<E(!new)>(out: seq<E>, keyOf: E -> Key, ring: S.Keyring, good: E -> bool)
    requires ring.Valid() && WritesAll(out, keyOf, ring, {}, good)
    ensures Distinct(keyOf, out) && forall i :: 0 <= i < |out| ==> good(out[i])
    ensures forall k :: k in ring.idOf ==> exists i :: 0 <= i < |out| && keyOf(out[i]) == k
  {
    forall k | k in ring.idOf ensures exists i :: 0 <= i < |out| && keyOf(out[i]) == k {
      assert ring.keyOf[ring.idOf[k]] == k;
    }
  }

  lemma ChannelsExported(p: Platform, db: S.Db, out: seq<ChannelEntry>)
    requires S.Valid(db) && FullyKeyed(db) && WritesAll(out, ChannelKey(), db.channelKeys, {}, x => WritesChannel(p, S.Seen(db), x))
    ensures Distinct(ChannelKey(), out) && forall i :: 0 <= i < |out| ==> WritesChannel(p, S.Seen(db), out[i])
    ensures forall k :: k in S.Seen(db).channels ==> exists i :: 0 <= i < |out| && out[i].key == k
  {
    hide WritesAll, WritesChannel, S.Valid, S.Seen, FullyKeyed, S.Keyring.Valid;
    S.KeysSeen(db);
    S.RingsValid(db);
    var good := x => WritesChannel(p, S.Seen(db), x);
    AllKeysWritten(out, ChannelKey(), db.channelKeys, good);
    assert forall i :: 0 <= i < |out| ==> good(out[i]);
    forall k | k in S.Seen(db).channels ensures exists i :: 0 <= i < |out| && out[i].key == k {
      var i :| 0 <= i < |out| && ChannelKey()(out[i]) == k;
      assert out[i].key == k;
    }
  }

  lemma MonitorsExported(p: Platform, db: S.Db, out: seq<MonitorEntry>)
    requires S.Valid(db) && FullyKeyed(db) && WritesAll(out, MonitorKey(), db.monitorKeys, {}, x => WritesMonitor(p, S.Seen(db), x))
    ensures Distinct(MonitorKey(), out) && forall i :: 0 <= i < |out| ==> WritesMonitor(p, S.Seen(db), out[i])
    ensures forall k :: k in S.Seen(db).monitors ==> exists i :: 0 <= i < |out| && out[i].key == k
  {
    hide WritesAll, WritesMonitor, S.Valid, S.Seen, FullyKeyed, S.Keyring.Valid;
    S.KeysSeen(db);
    S.RingsValid(db);
    var good := x => WritesMonitor(p, S.Seen(db), x);
    AllKeysWritten(out, MonitorKey(), db.monitorKeys, good);
    assert forall i :: 0 <= i < |out| ==> good(out[i]);
    forall k | k in S.Seen(db).monitors ensures exists i :: 0 <= i < |out| && out[i].key == k {
      var i :| 0 <= i < |out| && MonitorKey()(out[i]) == k;
      assert out[i].key == k;
    }
  }

  lemma RulesExported(v: View, out: seq<RuleEntry>, pairs: seq<TagPair>)
    requires WritesRules(v, out, pairs, {})
    ensures Distinct(WrittenPair(), out) && forall i :: 0 <= i < |out| ==> WritesRule(v, out[i])
    ensures forall t :: t in v.rules ==> exists i :: 0 <= i < |out| && TagPair(out[i].tagKey, out[i].tagValue) == t
  {
    hide WritesRule;
    forall t | t in v.rules ensures exists i :: 0 <= i < |out| && TagPair(out[i].tagKey, out[i].tagValue) == t {
      var i :| 0 <= i < |pairs| && pairs[i] == t;
      assert TagPair(out[i].tagKey, out[i].tagValue) == t;
    }
  }

  lemma PagesExported(v: View, out: seq<PageEntry>)
    requires WritesPages(v, out, {})
    ensures Distinct(WrittenSlug(), out) && (forall i :: 0 <= i < |out| ==> WritesPage(v, out[i]))
    ensures forall s :: s in v.pages ==> exists i :: 0 <= i < |out| && out[i].slug == s
  {
    hide WritesPage;
  }

  lemma KeyedMonitorRefs(db: S.Db, k: Key)
    requires S.Valid(db) && FullyKeyed(db) && k in S.Seen(db).monitors
    ensures RefsOnInstance(S.Seen(db).monitors[k].channels, S.Seen(db).channels.Keys)
  {
    MonitorRefsSeen(db, k);
    AttachedExist(db, db.monitorKeys.idOf[k]);
    ChannelsKeyed(db);
    hide S.Valid, S.Seen, FullyKeyed, S.Keyring.Valid, S.Keyring.RefsOf, RefsOnInstance, S.AttachedTo;
    KeyedRefs(db.channelKeys, S.AttachedTo(db.attached, db.monitorKeys.idOf[k]), db.channels.Keys, S.Seen(db).channels.Keys);
  }

  lemma MonitorRefsSeen(db: S.Db, k: Key)
    requires S.Valid(db) && k in S.Seen(db).monitors
    ensures k in db.monitorKeys.idOf
    ensures S.Seen(db).monitors[k].channels == db.channelKeys.RefsOf(S.AttachedTo(db.attached, db.monitorKeys.idOf[k]))
  {
    hide S.Valid, Undated, S.Keyring.RefsOf, S.AttachedTo, S.ChannelsSeen, S.RulesSeen, S.PagesSeen, S.WindowsSeen;
  }

  lemma AttachedExist(db: S.Db, id: S.Id)
    requires S.Valid(db)
    ensures S.AttachedTo(db.attached, id) <= db.channels.Keys
  {
  }

  lemma ChannelsKeyed(db: S.Db)
    requires S.Valid(db) && FullyKeyed(db)
    ensures db.channelKeys.Valid() && db.channels.Keys <= db.channelKeys.keyOf.Keys
    ensures forall k :: k in db.channelKeys.idOf && db.channelKeys.idOf[k] in db.channels.Keys ==> k in S.Seen(db).channels.Keys
  {
    S.KeysSeen(db);
    hide S.Seen;
  }

  lemma KeyedRuleRefs(db: S.Db, t: TagPair)
    requires S.Valid(db) && FullyKeyed(db) && t in S.Seen(db).rules
    ensures RefsOnInstance(S.Seen(db).rules[t].channels, S.Seen(db).channels.Keys)
    ensures RefsOnInstance(S.Seen(db).rules[t].excluded, S.Seen(db).monitors.Keys)
  {
    hide Undated;
    KeyedRefs(db.channelKeys, db.rules[t].channels, db.channels.Keys, S.Seen(db).channels.Keys);
    KeyedRefs(db.monitorKeys, db.rules[t].excluded, db.monitors.Keys, S.Seen(db).monitors.Keys);
  }

  lemma KeyedWindowRef(db: S.Db, w: Window)
    requires S.Valid(db) && FullyKeyed(db) && w in S.Seen(db).windows && w.monitor.Some?
    ensures w.monitor.value.Keyed? && w.monitor.value.key in S.Seen(db).monitors
  {
    var n :| 0 <= n < |S.Seen(db).windows| && S.Seen(db).windows[n] == w;
    WindowShown(db, n);
    assert db.windows[n] in db.windows;
  }

  lemma KeyedEntryRef(db: S.Db, s: string, e: Entry)
    requires S.Valid(db) && FullyKeyed(db) && s in S.Seen(db).pages && e in S.Seen(db).pages[s].entries
    ensures e.monitor.Keyed? && e.monitor.key in S.Seen(db).monitors
  {
    var entries := S.Seen(db).pages[s].entries;
    var n :| 0 <= n < |entries| && entries[n] == e;
    assert db.pages[s].entries[n] in db.pages[s].entries;
  }

  lemma KeyedInstance(db: S.Db)
    requires S.Valid(db) && FullyKeyed(db)
    ensures AllKeyed(S.Seen(db))
  {
    hide S.Valid, S.Seen, FullyKeyed, RefsOnInstance;
    var v := S.Seen(db);
    forall k | k in v.monitors ensures RefsOnInstance(v.monitors[k].channels, v.channels.Keys) { KeyedMonitorRefs(db, k); }
    forall t | t in v.rules
      ensures RefsOnInstance(v.rules[t].channels, v.channels.Keys) && RefsOnInstance(v.rules[t].excluded, v.monitors.Keys)
    {
      KeyedRuleRefs(db, t);
    }
    forall w | w in v.windows && w.monitor.Some? ensures w.monitor.value.Keyed? && w.monitor.value.key in v.monitors {
      KeyedWindowRef(db, w);
    }
    forall s, e | s in v.pages && e in v.pages[s].entries ensures e.monitor.Keyed? && e.monitor.key in v.monitors {
      KeyedEntryRef(db, s, e);
    }
  }

  lemma KeyedRefs(ring: S.Keyring, ids: set<S.Id>, there: set<S.Id>, keys: set<Key>)
    requires ring.Valid() && ids <= there <= ring.keyOf.Keys && forall k :: k in ring.idOf && ring.idOf[k] in there ==> k in keys
    ensures RefsOnInstance(ring.RefsOf(ids), keys)
  {
  }

  lemma EachIsOne(ws: seq<Window>, out: seq<WindowEntry>, now: int)
    requires WritesEach(out, Live(ws, |ws|, now))
    ensures forall i :: 0 <= i < |out| ==> WritesOneOf(out[i], ws)
  {
    hide Writes;
    LiveAreThere(ws, |ws|, now);
  }

  lemma SectionsAreExport(p: Platform, db: S.Db, doc: Document, pairs: seq<TagPair>, now: int)
    requires S.Valid(db) && FullyKeyed(db)
    requires WritesAll(doc.channels, ChannelKey(), db.channelKeys, {}, x => WritesChannel(p, S.Seen(db), x))
    requires WritesAll(doc.monitors, MonitorKey(), db.monitorKeys, {}, x => WritesMonitor(p, S.Seen(db), x))
    requires WritesRules(S.Seen(db), doc.rules, pairs, {}) && WritesPages(S.Seen(db), doc.pages, {})
    requires WritesEach(doc.windows, Live(S.Seen(db).windows, |S.Seen(db).windows|, now))
    ensures IsExport(p, S.Seen(db), doc) && Complete(S.Seen(db), doc, now)
  {
    hide S.Valid, S.Seen, FullyKeyed, WritesAll, WritesRules, WritesPages, WritesOneOf, WritesEach, Writes, WritesChannel, WritesMonitor,
      WritesRule, WritesPage, Distinct;
    EachIsOne(S.Seen(db).windows, doc.windows, now);
    ChannelsExported(p, db, doc.channels);
    MonitorsExported(p, db, doc.monitors);
    RulesExported(S.Seen(db), doc.rules, pairs);
    PagesExported(S.Seen(db), doc.pages);
  }

  lemma AllAreListed(p: Platform, v: View, doc: Document, now: int)
    requires IsExport(p, v, doc) && Complete(v, doc, now)
    ensures ListedUnfilledAreOff(p, v, doc) <==> UnfilledAreOff(p, v)
  {
    hide Unfilled, WritesMonitor, WritesRule, WritesPage, WritesOneOf, Writes, ExportedChannel, Distinct;
    if ListedUnfilledAreOff(p, v, doc) {
      forall k | k in v.channels ensures Unfilled(p, v.channels[k].channel) == {} || !v.channels[k].channel.enabled {
        var i :| 0 <= i < |doc.channels| && doc.channels[i].key == k;
      }
    }
  }

  /**
   * exportConfig, with the pages as an administrator gets them. The file holds the whole configuration, but for
   * the windows that have ended; imported back into an instance that meets the rules, it is accepted, and planned
   * as unchanged throughout exactly when every channel with a setting still to be filled in is switched off.
   */
  method ExportConfig(p: Platform, db: S.Db, days: nat -> seq<int>, now: int) returns (doc: Document)
    requires S.Valid(db) && FullyKeyed(db)
    requires forall i :: 0 <= i < |db.windows| ==> multiset(days(i)) == db.windows[i].spec.weekdays
    ensures IsExport(p, S.Seen(db), doc) && Complete(S.Seen(db), doc, now)
    ensures Dependable(p) && MeetsRules(p, S.Seen(db)) ==>
      && Accepts(p, S.Seen(db), doc)
      && (PlansAsUnchanged(p, S.Seen(db), doc) <==> UnfilledAreOff(p, S.Seen(db)))
  {
    hide S.Valid, S.Seen, FullyKeyed, MeetsRules, WritesAll, WritesRules, WritesPages, WritesEach, IsExport, Complete,
      Accepts, PlansAsUnchanged, ListedUnfilledAreOff, UnfilledAreOff, AllKeyed, Dependable;
    var channels := WriteChannels(p, db);
    var monitors := WriteMonitors(p, db);
    var rules;
    ghost var pairs;
    rules, pairs := WriteRules(db);
    var windows := WriteWindows(db, days, now);
    var pages := WritePages(db);
    doc := Document(channels, monitors, rules, windows, pages);
    SectionsAreExport(p, db, doc, pairs, now);
    KeyedInstance(db);
    AllAreListed(p, S.Seen(db), doc, now);
    if Dependable(p) && MeetsRules(p, S.Seen(db)) { OwnExportIsUnchanged(p, S.Seen(db), doc); }
  }
}
