/** Writing the monitors of a plan (the second loop of applyImport, internal/api/config_import.go). */
module ConfigApplyMonitors {
  import opened Prelude
  import opened MonitorRules
  import opened KeyedMerge
  import opened ConfigModel
  import opened ConfigMonitors
  import opened ConfigSpec
  import S = ConfigStore
  import opened ConfigCalls
  import opened ConfigSteps

  /** The parts of the instance the monitor steps do not write. */
  ghost predicate OnlyMonitors(a: S.Db, b: S.Db) {
    a.channels == b.channels && a.channelKeys == b.channelKeys && a.defaultId == b.defaultId && a.quiet == b.quiet
    && a.rules == b.rules && a.windows == b.windows && a.pages == b.pages
  }

  /** The ids behind a list of keys. */
  method IdsFor(ids: map<Key, S.Id>, keys: seq<Key>) returns (out: set<S.Id>)
    requires forall k :: k in keys ==> k in ids
    ensures out == set k | k in keys :: ids[k]
  {
    out := {};
    for i := 0 to |keys|
      invariant out == set k | k in keys[..i] :: ids[k]
    {
      assert keys[..i + 1] == keys[..i] + [keys[i]];
      out := out + {ids[keys[i]]};
    }
    assert keys[..|keys|] == keys;
  }

  method CreateKeyed(store: Store, k: Key, m: Monitor) returns (id: Option<S.Id>)
    requires S.Valid(store.db) && k !in store.db.monitorKeys.idOf
    modifies store
    ensures S.Valid(store.db)
    ensures id.Some? ==> id.value == old(store.db).Fresh() && store.db == S.WithMonitor(old(store.db), k, Stored(m))
    ensures id.None? ==> store.db == old(store.db) || store.db == old(store.db).(nextId := old(store.db).nextId + 1)
  {
    hide S.Valid, Stored;
    ghost var before := store.db;
    S.StoredIsPinTimed(m);
    S.NewMonitorValid(before, k, Stored(m));
    S.NextIdUnseen(before);
    id := store.CreateMonitor(m);
    if id.None? { return; }
    var ok := store.SetMonitorKey(id.value, k);
    if !ok {
      store.DeleteMonitor(id.value);
      S.TakenBack(before.monitors, id.value, Stored(m));
      id := None;
    }
  }

  /** The monitor under st.key is there with its row written, or nothing happened. */
  method WriteMonitor(store: Store, st: MonitorStep, ghost e: Option<MonitorView>, ghost t: MonitorView) returns (id: Option<S.Id>)
    requires S.Valid(store.db) && st.id == Get(store.db.monitorKeys.idOf, st.key)
    requires Get(S.Seen(store.db).monitors, st.key) == e && MonitorMakes(st, e, t)
    modifies store
    ensures S.Valid(store.db) && OnlyMonitors(store.db, old(store.db))
    ensures OnlyKey(store.db.monitorKeys.idOf, old(store.db).monitorKeys.idOf, st.key)
    ensures id.None? ==> S.Seen(store.db) == old(S.Seen(store.db))
    ensures id.Some? ==> st.key in store.db.monitorKeys.idOf && store.db.monitorKeys.idOf[st.key] == id.value
    ensures id.Some? ==> S.Seen(store.db) == old(S.Seen(store.db)).(
      monitors := old(S.Seen(store.db)).monitors[st.key := MonitorView(t.monitor, AttachedTo(e))])
  {
    hide S.Seen, S.Valid, Stored, Undated;
    ghost var before := store.db;
    id := st.id;
    if id.None? {
      S.NextIdUnseen(before);
      S.NewMonitorSeen(before, st.key, Stored(st.monitor));
      S.KeysSeen(before);
      id := CreateKeyed(store, st.key, st.monitor);
      return;
    }
    S.KeyedMonitor(before, st.key);
    if st.write {
      S.StoredIsPinTimed(st.monitor);
      S.MonitorUpdated(before, st.key, Stored(st.monitor));
      var ok := store.UpdateMonitor(id.value, st.monitor);
      if !ok { id := None; }
    } else {
      assert S.Seen(before).monitors[st.key := MonitorView(t.monitor, AttachedTo(e))] == S.Seen(before).monitors;
    }
  }

  /** Only the monitor under k moved, to a state its writing can stop in. */
  ghost predicate MonitorStopped(a: View, b: View, k: Key, e: Option<MonitorView>, t: MonitorView) {
    b == a.(monitors := b.monitors) && MonitorHalf(e, Get(b.monitors, k), t) && OnlyKey(b.monitors, a.monitors, k)
  }

  method ApplyMonitor(store: Store, st: MonitorStep, ghost e: Option<MonitorView>, ghost t: MonitorView) returns (ok: bool)
    requires S.Valid(store.db) && st.id == Get(store.db.monitorKeys.idOf, st.key)
    requires Get(S.Seen(store.db).monitors, st.key) == e && MonitorMakes(st, e, t)
    requires st.channels.Some? ==> forall k :: k in st.channels.value ==> k in store.db.channelKeys.idOf
    modifies store
    ensures S.Valid(store.db) && OnlyMonitors(store.db, old(store.db))
    ensures OnlyKey(store.db.monitorKeys.idOf, old(store.db).monitorKeys.idOf, st.key)
    ensures ok ==> S.Seen(store.db) == old(S.Seen(store.db)).(monitors := old(S.Seen(store.db)).monitors[st.key := t])
    ensures !ok ==> MonitorStopped(old(S.Seen(store.db)), S.Seen(store.db), st.key, e, t)
  {
    hide S.Seen, S.Valid, Stored, Undated;
    ghost var start := S.Seen(store.db);
    StopsAllowed(start, st.key, e, t);
    var id := WriteMonitor(store, st, e, t);
    if id.None? { return false; }
    if st.channels.Some? {
      var ids := IdsFor(store.db.channelKeys.idOf, st.channels.value);
      S.KeyedIdsExist(store.db, st.channels.value, ids);
      S.AttachedUpdated(store.db, st.key, ids);
      S.KeyedMonitor(store.db, st.key);
      RowThenChannels(start.monitors, st.key, MonitorView(t.monitor, AttachedTo(e)), t);
      ok := store.SetMonitorChannels(id.value, ids);
      return;
    }
    ok := true;
  }

  lemma RowThenChannels(m: map<Key, MonitorView>, k: Key, row: MonitorView, t: MonitorView)
    requires row.monitor == t.monitor
    ensures m[k := row][k := m[k := row][k].(channels := t.channels)] == m[k := t]
  {
  }

  lemma StopsAllowed(a: View, k: Key, e: Option<MonitorView>, t: MonitorView)
    requires Get(a.monitors, k) == e
    ensures MonitorStopped(a, a, k, e, t)
    ensures MonitorStopped(a, a.(monitors := a.monitors[k := MonitorView(t.monitor, AttachedTo(e))]), k, e, t)
  {
  }

  // ------------------------------------------------------------------------- the loop

  ghost predicate MonitorPlanned(p: Platform, was: map<Key, MonitorView>, ids: map<Key, S.Id>, x: MonitorEntry, st: MonitorStep) {
    var e := Get(was, x.key);
    && st.key == x.key && st.id == Get(ids, x.key) && (st.channels.Some? ==> st.channels == x.channels)
    && MonitorRule(p)(e, x).Some? && MonitorMakes(st, e, MonitorRule(p)(e, x).value)
    && MonitorSpares(p.rules, st, e, MonitorRule(p)(e, x).value, Planned(p.rules, MonitorOf(e), x, 0))
  }

  function MonitorsDone(p: Platform, v: View, xs: seq<MonitorEntry>, n: nat): View
    requires n <= |xs|
  {
    v.(monitors := Applied(MonitorRule(p), MonitorKey(), v.monitors, xs, n))
  }

  ghost predicate MonitorsStopped(p: Platform, v: View, w: View, xs: seq<MonitorEntry>) {
    w == v.(monitors := w.monitors) && Between(MonitorRule(p), MonitorParts(), MonitorKey(), v.monitors, w.monitors, xs)
  }

  lemma MonitorAdvances(p: Platform, v: View, xs: seq<MonitorEntry>, n: nat)
    requires n < |xs| && Distinct(MonitorKey(), xs) && Accepted(MonitorRule(p), MonitorKey(), v.monitors, xs)
    ensures var now, k := MonitorsDone(p, v, xs, n), xs[n].key;
            && MonitorRule(p)(Get(v.monitors, k), xs[n]).Some? && Get(now.monitors, k) == Get(v.monitors, k)
            && MonitorsDone(p, v, xs, n + 1) == now.(monitors := now.monitors[k := MonitorRule(p)(Get(v.monitors, k), xs[n]).value])
  {
    hide NextMonitorView;
    assert MonitorKey()(xs[n]) == xs[n].key;
    AppliedAt(MonitorRule(p), MonitorKey(), v.monitors, xs, n, xs[n].key);
  }

  lemma MonitorStops(p: Platform, v: View, xs: seq<MonitorEntry>, n: nat, w: View)
    requires n < |xs| && Distinct(MonitorKey(), xs) && Accepted(MonitorRule(p), MonitorKey(), v.monitors, xs)
    requires MonitorRule(p)(Get(v.monitors, xs[n].key), xs[n]).Some?
    requires MonitorStopped(MonitorsDone(p, v, xs, n), w, xs[n].key, Get(v.monitors, xs[n].key), MonitorRule(p)(Get(v.monitors, xs[n].key), xs[n]).value)
    ensures MonitorsStopped(p, v, w, xs)
  {
    hide NextMonitorView;
    assert MonitorKey()(xs[n]) == xs[n].key;
    StoppedIsBetween(MonitorRule(p), MonitorParts(), MonitorKey(), v.monitors, xs, n, w.monitors);
  }

  ghost predicate MonitorsPlanned(p: Platform, was: map<Key, MonitorView>, ids: map<Key, S.Id>, xs: seq<MonitorEntry>, steps: seq<MonitorStep>) {
    |steps| == |xs| && forall i :: 0 <= i < |xs| ==> MonitorPlanned(p, was, ids, xs[i], steps[i])
  }

  ghost predicate ChannelRefsIn(xs: seq<MonitorEntry>, keys: set<Key>) { forall i :: 0 <= i < |xs| ==> Known(xs[i].channels, keys) }

  /** One turn of the loop. */
  method ApplyMonitorAt(store: Store, p: Platform, st: MonitorStep, ghost v: View, ghost ids: map<Key, S.Id>, ghost xs: seq<MonitorEntry>, ghost i: nat)
    returns (ok: bool)
    requires S.Valid(store.db) && i < |xs| && S.Seen(store.db) == MonitorsDone(p, v, xs, i)
    requires MonitorPlanned(p, v.monitors, ids, xs[i], st)
    requires st.id == Get(store.db.monitorKeys.idOf, st.key) && Known(xs[i].channels, store.db.channelKeys.idOf.Keys)
    requires Distinct(MonitorKey(), xs) && Accepted(MonitorRule(p), MonitorKey(), v.monitors, xs)
    modifies store
    ensures S.Valid(store.db) && OnlyMonitors(store.db, old(store.db))
    ensures OnlyKey(store.db.monitorKeys.idOf, old(store.db).monitorKeys.idOf, st.key)
    ensures ok ==> S.Seen(store.db) == MonitorsDone(p, v, xs, i + 1)
    ensures !ok ==> MonitorsStopped(p, v, S.Seen(store.db), xs)
  {
    hide S.Seen, S.Valid, NextMonitorView, MonitorMakes, MonitorSpares, Planned, MonitorStopped, MonitorsStopped, Accepted, Distinct;
    ghost var e, t := Get(v.monitors, st.key), MonitorRule(p)(Get(v.monitors, st.key), xs[i]).value;
    MonitorAdvances(p, v, xs, i);
    ok := ApplyMonitor(store, st, e, t);
    if !ok { MonitorStops(p, v, xs, i, S.Seen(store.db)); }
  }

  lemma NoneDone(p: Platform, v: View, xs: seq<MonitorEntry>)
    ensures MonitorsDone(p, v, xs, 0) == v
  {
  }

  lemma StepAt(p: Platform, was: map<Key, MonitorView>, ids: map<Key, S.Id>, xs: seq<MonitorEntry>, steps: seq<MonitorStep>, channels: set<Key>)
    requires MonitorsPlanned(p, was, ids, xs, steps) && ChannelRefsIn(xs, channels)
    ensures |steps| == |xs|
    ensures forall i :: 0 <= i < |steps| ==> MonitorPlanned(p, was, ids, xs[i], steps[i]) && Known(xs[i].channels, channels)
    ensures forall i :: 0 <= i < |steps| ==> steps[i].id == Get(ids, steps[i].key)
  {
    hide NextMonitorView, MonitorMakes, MonitorSpares, Planned;
  }

  lemma KeysDiffer(p: Platform, was: map<Key, MonitorView>, ids: map<Key, S.Id>, xs: seq<MonitorEntry>, steps: seq<MonitorStep>, i: nat)
    requires MonitorsPlanned(p, was, ids, xs, steps) && Distinct(MonitorKey(), xs) && i < |xs|
    ensures forall j :: i < j < |steps| ==> steps[j].key != steps[i].key
  {
    hide NextMonitorView, MonitorMakes, MonitorSpares, Planned;
    forall j | i < j < |steps| ensures steps[j].key != steps[i].key {
      assert MonitorKey()(xs[i]) != MonitorKey()(xs[j]);
    }
  }

  /** The second loop of applyImport. */
  method ApplyMonitors(store: Store, p: Platform, steps: seq<MonitorStep>, ghost v: View, ghost xs: seq<MonitorEntry>) returns (ok: bool)
    requires S.Valid(store.db) && S.Seen(store.db) == v && MonitorsPlanned(p, v.monitors, store.db.monitorKeys.idOf, xs, steps)
    requires Distinct(MonitorKey(), xs) && Accepted(MonitorRule(p), MonitorKey(), v.monitors, xs)
    requires ChannelRefsIn(xs, store.db.channelKeys.idOf.Keys)
    modifies store
    ensures S.Valid(store.db) && OnlyMonitors(store.db, old(store.db))
    ensures ok ==> S.Seen(store.db) == MonitorsDone(p, v, xs, |xs|)
    ensures !ok ==> MonitorsStopped(p, v, S.Seen(store.db), xs)
  {
    hide S.Seen, S.Valid, NextMonitorView, MonitorPlanned, MonitorsPlanned, ChannelRefsIn, MonitorsDone, MonitorsStopped, Accepted, Distinct, Known;
    ghost var ids := store.db.monitorKeys.idOf;
    StepAt(p, v.monitors, ids, xs, steps, store.db.channelKeys.idOf.Keys);
    NoneDone(p, v, xs);
    var i := 0;
    while i < |steps|
      invariant 0 <= i <= |steps| && S.Valid(store.db) && OnlyMonitors(store.db, old(store.db))
      invariant S.Seen(store.db) == MonitorsDone(p, v, xs, i)
      invariant forall j :: i <= j < |steps| ==> steps[j].id == Get(store.db.monitorKeys.idOf, steps[j].key)
    {
      ok := ApplyMonitorAt(store, p, steps[i], v, ids, xs, i);
      if !ok { return; }
      KeysDiffer(p, v.monitors, ids, xs, steps, i);
      i := i + 1;
    }
    ok := true;
  }
}
