/** Writing the channels of a plan (applyChannel and the first loop of applyImport,
    internal/api/config_import.go). */
module ConfigApplyChannels {
  import opened Prelude
  import opened KeyedMerge
  import opened ConfigModel
  import opened ConfigChannels
  import opened ConfigSpec
  import opened ConfigStore
  import opened ConfigCalls
  import opened ConfigSteps

  /** The parts of the instance the channel steps do not write. */
  ghost predicate OnlyChannels(a: Db, b: Db) {
    a.monitors == b.monitors && a.monitorKeys == b.monitorKeys && a.attached == b.attached && a.rules == b.rules
    && a.windows == b.windows && a.pages == b.pages
  }

  /** A channel is created and given its key; when the key cannot be stored the channel is taken back. */
  method CreateKeyed(store: Store, k: Key, c: Channel) returns (id: Option<Id>)
    requires Valid(store.db) && k !in store.db.channelKeys.idOf
    modifies store
    ensures Valid(store.db)
    ensures id.Some? ==> id.value == old(store.db).Fresh() && store.db == WithChannel(old(store.db), k, c)
    ensures id.None? ==> store.db == old(store.db) || store.db == old(store.db).(nextId := old(store.db).nextId + 1)
  {
    hide Valid, WithChannel;
    ghost var before := store.db;
    NewRow(before, k, c);
    id := store.CreateChannel(c);
    if id.None? { return; }
    var ok := store.SetChannelKey(id.value, k);
    if !ok {
      store.DeleteChannel(id.value);
      id := None;
    }
  }

  /** The instance with a new channel that has no key yet. */
  function Rowed(db: Db, c: Channel): Db { db.(channels := db.channels[db.Fresh() := c], nextId := db.nextId + 1) }

  /** A new channel's row, given its key or taken back. */
  lemma NewRow(db: Db, k: Key, c: Channel)
    requires Valid(db) && k !in db.channelKeys.idOf
    ensures db.Fresh() !in db.channelKeys.keyOf && Valid(WithChannel(db, k, c)) && Valid(db.(nextId := db.nextId + 1))
    ensures Rowed(db, c).(channelKeys := db.channelKeys.Add(k, db.Fresh())) == WithChannel(db, k, c)
    ensures Rowed(db, c).channels - {db.Fresh()} == db.channels
  {
    hide Valid;
    NextIdUnseen(db);
    TakenBack(db.channels, db.Fresh(), c);
    NewChannelValid(db, k, c);
  }

  lemma NewChannelOnly(db: Db, k: Key, c: Channel)
    ensures OnlyChannels(WithChannel(db, k, c), db) && OnlyKey(WithChannel(db, k, c).channelKeys.idOf, db.channelKeys.idOf, k)
    ensures k in WithChannel(db, k, c).channelKeys.idOf && WithChannel(db, k, c).channelKeys.idOf[k] == db.Fresh()
  {
  }

  /** The channel under st.key is there with its row written, or nothing happened. */
  method WriteChannel(store: Store, st: ChannelStep, ghost e: Option<ChannelView>) returns (id: Option<Id>)
    requires Valid(store.db) && st.id == Get(store.db.channelKeys.idOf, st.key)
    requires Get(Seen(store.db).channels, st.key) == e && (e.None? ==> st.write) && (!st.write ==> ChannelOf(e) == Some(st.channel))
    modifies store
    ensures Valid(store.db) && OnlyChannels(store.db, old(store.db)) && OnlyKey(store.db.channelKeys.idOf, old(store.db).channelKeys.idOf, st.key)
    ensures id.None? ==> Seen(store.db) == old(Seen(store.db))
    ensures id.Some? ==> st.key in store.db.channelKeys.idOf && store.db.channelKeys.idOf[st.key] == id.value
    ensures id.Some? ==> Seen(store.db) == old(Seen(store.db)).(
      channels := old(Seen(store.db)).channels[st.key := ChannelView(st.channel, QuietOf(e))])
  {
    hide Seen, Valid, WithChannel, Keyring.Add;
    ghost var before := store.db;
    id := st.id;
    if id.None? {
      NextIdUnseen(before);
      NewChannelSeen(before, st.key, st.channel);
      NewChannelOnly(before, st.key, st.channel);
      KeysSeen(before);
      id := CreateKeyed(store, st.key, st.channel);
      return;
    }
    KeyedChannel(before, st.key);
    if st.write {
      ChannelUpdated(before, st.key, st.channel);
      var ok := store.UpdateChannel(id.value, st.channel);
      if !ok { id := None; }
    } else {
      assert Seen(before).channels[st.key := ChannelView(st.channel, QuietOf(e))] == Seen(before).channels;
    }
  }

  /** applyChannel. */
  method ApplyChannel(store: Store, p: Platform, st: ChannelStep, ghost e: Option<ChannelView>, ghost t: ChannelView) returns (ok: bool)
    requires Valid(store.db) && st.id == Get(store.db.channelKeys.idOf, st.key)
    requires Get(Seen(store.db).channels, st.key) == e && ChannelMakes(p, st, e, t)
    modifies store
    ensures Valid(store.db) && OnlyChannels(store.db, old(store.db)) && OnlyKey(store.db.channelKeys.idOf, old(store.db).channelKeys.idOf, st.key)
    ensures ok ==> st.key in store.db.channelKeys.idOf
    ensures ok ==> Seen(store.db) == old(Seen(store.db)).(
      channels := old(Seen(store.db)).channels[st.key := t],
      defaultChannel := if st.makeDefault then Some(Keyed(st.key)) else old(Seen(store.db)).defaultChannel)
    ensures !ok ==> ChannelStopped(old(Seen(store.db)), Seen(store.db), st.key, e, t)
  {
    hide Seen, Valid, ChannelStopped, OnlyKey, NormalQuiet;
    ghost var start := Seen(store.db);
    var id := WriteChannel(store, st, e);
    StopsAllowed(start, st.key, e, t);
    if id.None? { return false; }
    ok := ApplyQuiet(store, p, st, id.value);
    if !ok { return; }
    RowThenQuiet(start.channels, st.key, ChannelView(st.channel, QuietOf(e)), t);
    if st.makeDefault {
      DefaultUpdated(store.db, st.key);
      KeyedChannel(store.db, st.key);
      ok := store.SetDefaultChannel(id.value);
    }
  }

  lemma RowThenQuiet(m: map<Key, ChannelView>, k: Key, row: ChannelView, t: ChannelView)
    requires row.channel == t.channel
    ensures m[k := row][k := m[k := row][k].(quiet := t.quiet)] == m[k := t]
  {
  }

  lemma StopsAllowed(a: View, k: Key, e: Option<ChannelView>, t: ChannelView)
    requires Get(a.channels, k) == e
    ensures ChannelStopped(a, a, k, e, t)
    ensures ChannelStopped(a, a.(channels := a.channels[k := ChannelView(t.channel, QuietOf(e))]), k, e, t)
    ensures ChannelStopped(a, a.(channels := a.channels[k := t]), k, e, t)
  {
  }

  /** Only the channel under k moved, to a state its writing can stop in. */
  ghost predicate ChannelStopped(a: View, b: View, k: Key, e: Option<ChannelView>, t: ChannelView) {
    b == a.(channels := b.channels) && ChannelHalf(e, Get(b.channels, k), t) && OnlyKey(b.channels, a.channels, k)
  }

  method ApplyQuiet(store: Store, p: Platform, st: ChannelStep, id: Id) returns (ok: bool)
    requires Valid(store.db) && st.key in store.db.channelKeys.idOf && store.db.channelKeys.idOf[st.key] == id
    requires st.key in Seen(store.db).channels && !(st.quiet.Some? && st.clearQuiet)
    requires st.quiet.Some? ==> NormalQuiet(p, st.quiet.value) == st.quiet
    modifies store
    ensures Valid(store.db) && OnlyChannels(store.db, old(store.db)) && store.db.channelKeys == old(store.db).channelKeys
    ensures !ok ==> store.db == old(store.db)
    ensures ok ==> var v := old(Seen(store.db)); Seen(store.db) == v.(
      channels := v.channels[st.key := v.channels[st.key].(
        quiet := if st.quiet.Some? then st.quiet else if st.clearQuiet then None else v.channels[st.key].quiet)])
  {
    hide Seen, Valid;
    ghost var before := store.db;
    KeyedChannel(before, st.key);
    ok := true;
    if st.quiet.Some? {
      QuietUpdated(before, st.key, before.quiet[id := st.quiet.value]);
      ok := store.SetQuietHours(p, id, st.quiet.value);
    } else if st.clearQuiet {
      QuietUpdated(before, st.key, before.quiet - {id});
      ok := store.ClearQuietHours(id);
    } else {
      assert Seen(before).channels[st.key := Seen(before).channels[st.key]] == Seen(before).channels;
    }
  }

  // ------------------------------------------------------------------------- the loop

  /** st is what the plan of v makes of the entry x. */
  ghost predicate ChannelPlanned(p: Platform, v: View, ids: map<Key, Id>, x: ChannelEntry, st: ChannelStep) {
    var e := Get(v.channels, x.key);
    && st.key == x.key && st.id == Get(ids, x.key)
    && ChannelRule(p)(e, x).Some? && ChannelMakes(p, st, e, ChannelRule(p)(e, x).value)
    && ChannelSpares(st, e, ChannelRule(p)(e, x).value)
    && st.makeDefault == (x.isDefault && v.defaultChannel != Some(Keyed(x.key)))
  }

  /** v with its first n channel entries imported. */
  function ChannelsDone(p: Platform, v: View, xs: seq<ChannelEntry>, n: nat): View
    requires n <= |xs|
  {
    v.(channels := Applied(ChannelRule(p), ChannelKey(), v.channels, xs, n), defaultChannel := DefaultAfter(v.defaultChannel, xs, n))
  }

  ghost predicate OneDefault(xs: seq<ChannelEntry>) { forall i, j :: 0 <= i < j < |xs| ==> !(xs[i].isDefault && xs[j].isDefault) }

  ghost predicate ChannelsStopped(p: Platform, v: View, w: View, xs: seq<ChannelEntry>) {
    && w == v.(channels := w.channels, defaultChannel := w.defaultChannel)
    && Between(ChannelRule(p), ChannelParts(), ChannelKey(), v.channels, w.channels, xs)
    && (w.defaultChannel == v.defaultChannel || w.defaultChannel == DefaultAfter(v.defaultChannel, xs, |xs|))
  }

  /** The default changes at most once on the way. */
  lemma {:induction false} DefaultSoFar(was: Option<Ref>, xs: seq<ChannelEntry>, n: nat, k: nat)
    requires n <= k <= |xs| && OneDefault(xs)
    ensures DefaultAfter(was, xs, n) == was || DefaultAfter(was, xs, n) == DefaultAfter(was, xs, k)
    ensures n < |xs| && xs[n].isDefault ==> DefaultAfter(was, xs, n) == was
    decreases k
  {
    if n < k {
      DefaultSoFar(was, xs, n, k - 1);
      if xs[k - 1].isDefault { NoDefaultBefore(was, xs, k - 1, n); }
    } else if n < |xs| && xs[n].isDefault {
      NoDefaultBefore(was, xs, n, n);
    }
  }

  lemma {:induction false} NoDefaultBefore(was: Option<Ref>, xs: seq<ChannelEntry>, i: nat, n: nat)
    requires n <= i < |xs| && xs[i].isDefault && OneDefault(xs)
    ensures DefaultAfter(was, xs, n) == was
  {
    if n > 0 { NoDefaultBefore(was, xs, i, n - 1); }
  }

  /** One entry imported moves the view by one entry. */
  lemma ChannelAdvances(p: Platform, v: View, ids: map<Key, Id>, xs: seq<ChannelEntry>, n: nat, st: ChannelStep)
    requires n < |xs| && Distinct(ChannelKey(), xs) && Accepted(ChannelRule(p), ChannelKey(), v.channels, xs)
    requires OneDefault(xs) && ChannelPlanned(p, v, ids, xs[n], st)
    ensures var now, t := ChannelsDone(p, v, xs, n), ChannelRule(p)(Get(v.channels, st.key), xs[n]).value;
            && Get(now.channels, st.key) == Get(v.channels, st.key)
            && ChannelsDone(p, v, xs, n + 1) == now.(
                 channels := now.channels[st.key := t],
                 defaultChannel := if st.makeDefault then Some(Keyed(st.key)) else now.defaultChannel)
  {
    hide NextChannelView, ChannelSpares;
    assert ChannelKey()(xs[n]) == st.key;
    AppliedAt(ChannelRule(p), ChannelKey(), v.channels, xs, n, st.key);
    DefaultSoFar(v.defaultChannel, xs, n, n);
  }

  lemma ChannelStops(p: Platform, v: View, ids: map<Key, Id>, xs: seq<ChannelEntry>, n: nat, st: ChannelStep, w: View)
    requires n < |xs| && Distinct(ChannelKey(), xs) && Accepted(ChannelRule(p), ChannelKey(), v.channels, xs)
    requires OneDefault(xs) && ChannelPlanned(p, v, ids, xs[n], st)
    requires ChannelStopped(ChannelsDone(p, v, xs, n), w, st.key, Get(v.channels, st.key), ChannelRule(p)(Get(v.channels, st.key), xs[n]).value)
    ensures ChannelsStopped(p, v, w, xs)
  {
    hide NextChannelView, ChannelSpares;
    assert ChannelKey()(xs[n]) == st.key;
    DefaultSoFar(v.defaultChannel, xs, n, |xs|);
    StoppedIsBetween(ChannelRule(p), ChannelParts(), ChannelKey(), v.channels, xs, n, w.channels);
  }

  ghost predicate ChannelsPlanned(p: Platform, v: View, ids: map<Key, Id>, xs: seq<ChannelEntry>, steps: seq<ChannelStep>) {
    |steps| == |xs| && forall i :: 0 <= i < |xs| ==> ChannelPlanned(p, v, ids, xs[i], steps[i])
  }

  /** One turn of the loop. */
  method ApplyChannelAt(store: Store, p: Platform, st: ChannelStep, ghost v: View, ghost ids: map<Key, Id>, ghost xs: seq<ChannelEntry>, ghost i: nat)
    returns (ok: bool)
    requires Valid(store.db) && i < |xs| && Seen(store.db) == ChannelsDone(p, v, xs, i)
    requires ChannelPlanned(p, v, ids, xs[i], st) && st.id == Get(store.db.channelKeys.idOf, st.key)
    requires Distinct(ChannelKey(), xs) && OneDefault(xs) && Accepted(ChannelRule(p), ChannelKey(), v.channels, xs)
    modifies store
    ensures Valid(store.db) && OnlyChannels(store.db, old(store.db)) && OnlyKey(store.db.channelKeys.idOf, old(store.db).channelKeys.idOf, st.key)
    ensures ok ==> Seen(store.db) == ChannelsDone(p, v, xs, i + 1)
    ensures !ok ==> ChannelsStopped(p, v, Seen(store.db), xs)
  {
    hide Seen, Valid, NextChannelView, ChannelMakes, ChannelSpares, ChannelStopped, ChannelsStopped, Accepted, Distinct, OneDefault, ChannelsDone;
    ghost var e, t := Get(v.channels, st.key), ChannelRule(p)(Get(v.channels, st.key), xs[i]).value;
    ChannelAdvances(p, v, ids, xs, i, st);
    ok := ApplyChannel(store, p, st, e, t);
    if !ok { ChannelStops(p, v, ids, xs, i, st, Seen(store.db)); }
  }

  lemma NoneDone(p: Platform, v: View, xs: seq<ChannelEntry>)
    ensures ChannelsDone(p, v, xs, 0) == v
  {
  }

  lemma StepAt(p: Platform, v: View, ids: map<Key, Id>, xs: seq<ChannelEntry>, steps: seq<ChannelStep>)
    requires ChannelsPlanned(p, v, ids, xs, steps)
    ensures |steps| == |xs|
    ensures forall i :: 0 <= i < |steps| ==> ChannelPlanned(p, v, ids, xs[i], steps[i]) && steps[i].id == Get(ids, steps[i].key)
  {
    hide NextChannelView, ChannelMakes, ChannelSpares;
  }

  lemma KeysDiffer(p: Platform, v: View, ids: map<Key, Id>, xs: seq<ChannelEntry>, steps: seq<ChannelStep>, i: nat)
    requires ChannelsPlanned(p, v, ids, xs, steps) && Distinct(ChannelKey(), xs) && i < |xs|
    ensures forall j :: i < j < |steps| ==> steps[j].key != steps[i].key
  {
    hide NextChannelView, ChannelMakes, ChannelSpares;
    forall j | i < j < |steps| ensures steps[j].key != steps[i].key {
      assert ChannelKey()(xs[i]) != ChannelKey()(xs[j]);
    }
  }

  /** The first loop of applyImport. */
  method ApplyChannels(store: Store, p: Platform, steps: seq<ChannelStep>, ghost v: View, ghost xs: seq<ChannelEntry>) returns (ok: bool)
    requires Valid(store.db) && Seen(store.db) == v && ChannelsPlanned(p, v, store.db.channelKeys.idOf, xs, steps)
    requires Distinct(ChannelKey(), xs) && OneDefault(xs) && Accepted(ChannelRule(p), ChannelKey(), v.channels, xs)
    modifies store
    ensures Valid(store.db) && OnlyChannels(store.db, old(store.db))
    ensures ok ==> Seen(store.db) == ChannelsDone(p, v, xs, |xs|)
    ensures !ok ==> ChannelsStopped(p, v, Seen(store.db), xs)
  {
    hide Seen, Valid, NextChannelView, ChannelPlanned, ChannelsPlanned, ChannelsDone, ChannelsStopped, Accepted, Distinct, OneDefault;
    ghost var ids := store.db.channelKeys.idOf;
    StepAt(p, v, ids, xs, steps);
    NoneDone(p, v, xs);
    var i := 0;
    while i < |steps|
      invariant 0 <= i <= |steps| && Valid(store.db) && OnlyChannels(store.db, old(store.db))
      invariant Seen(store.db) == ChannelsDone(p, v, xs, i)
      invariant forall j :: i <= j < |steps| ==> steps[j].id == Get(store.db.channelKeys.idOf, steps[j].key)
    {
      ok := ApplyChannelAt(store, p, steps[i], v, ids, xs, i);
      if !ok { return; }
      KeysDiffer(p, v, ids, xs, steps, i);
      i := i + 1;
    }
    ok := true;
  }
}
