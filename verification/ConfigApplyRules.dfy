/** Writing the routing rules and maintenance windows of a plan (applyRule and the loops of applyImport,
    internal/api/config_import.go). */
module ConfigApplyRules {
  import opened Prelude
  import opened KeyedMerge
  import opened ConfigModel
  import opened ConfigRules
  import opened ConfigSpec
  import S = ConfigStore
  import opened ConfigCalls
  import opened ConfigSteps
  import opened ConfigApplyMonitors

  ghost predicate OnlyRules(a: S.Db, b: S.Db) { a == b.(rules := a.rules) }

  /** Only the rule under tag moved, to a state its writing can stop in. */
  ghost predicate RuleStopped(a: View, b: View, tag: TagPair, e: Option<RuleView>, t: RuleView) {
    b == a.(rules := b.rules) && RuleHalf(e, Get(b.rules, tag), t) && OnlyKey(b.rules, a.rules, tag)
  }

  /** base with the rule under tag as row; the store has nothing else to show for it. */
  function WithRow(base: S.Db, tag: TagPair, row: S.RuleRow): S.Db { base.(rules := base.rules[tag := row]) }

  lemma SameElements(a: set<S.Id>, b: set<S.Id>)
    requires forall i :: i in a <==> i in b
    ensures a == b
  {
  }

  /** Every exclusion asked for and not there yet is added, in any order. */
  method ExcludeAll(store: Store, tag: TagPair, ghost channels: set<S.Id>, want: set<S.Id>, have: set<S.Id>, ghost base: S.Db)
    returns (ok: bool, ghost now: set<S.Id>)
    requires store.db == WithRow(base, tag, S.RuleRow(channels, have)) && want <= store.db.monitors.Keys
    modifies store
    ensures store.db == WithRow(base, tag, S.RuleRow(channels, now))
    ensures forall i :: i in have ==> i in now
    ensures forall i :: i in now ==> i in have || i in want
    ensures ok ==> forall i :: i in want ==> i in now
  {
    now := have;
    var left := want;
    while left != {}
      invariant store.db == WithRow(base, tag, S.RuleRow(channels, now))
      invariant forall i :: i in left ==> i in want
      invariant forall i :: i in now <==> i in have || (i in want && i !in left)
      decreases |left|
    {
      var i := S.AnyOf(left);
      if i !in have {
        assert i in store.db.monitors;
        ok := store.ExcludeMonitor(tag, i);
        if !ok { return; }
        now := now + {i};
        assert store.db == WithRow(base, tag, S.RuleRow(channels, now));
      }
      left := left - {i};
    }
    ok := true;
  }

  /** Every exclusion no longer asked for is removed. */
  method IncludeAll(store: Store, tag: TagPair, ghost channels: set<S.Id>, want: set<S.Id>, have: set<S.Id>, ghost was: set<S.Id>, ghost base: S.Db)
    returns (ok: bool, ghost now: set<S.Id>)
    requires store.db == WithRow(base, tag, S.RuleRow(channels, was)) && forall i :: i in was <==> i in have || i in want
    modifies store
    ensures store.db == WithRow(base, tag, S.RuleRow(channels, now))
    ensures forall i :: i in want ==> i in now
    ensures forall i :: i in now ==> i in have || i in want
    ensures ok ==> now == want
  {
    now := was;
    var left := have;
    while left != {}
      invariant store.db == WithRow(base, tag, S.RuleRow(channels, now))
      invariant forall i :: i in left ==> i in have
      invariant forall i :: i in now <==> i in want || i in left
      decreases |left|
    {
      var i := S.AnyOf(left);
      if i !in want {
        ok := store.IncludeMonitor(tag, i);
        if !ok { return; }
        now := now - {i};
        assert store.db == WithRow(base, tag, S.RuleRow(channels, now));
      }
      left := left - {i};
    }
    SameElements(now, want);
    ok := true;
  }

  /** A rule that is not written is there already, with the channels it is to have. */
  lemma WriteMeans(db: S.Db, st: RuleStep, e: Option<RuleView>, t: RuleView)
    requires S.Valid(db) && st.found == (st.tag in db.rules) && Get(S.Seen(db).rules, st.tag) == e && RuleMakes(st, e, t)
    ensures st.write ==> st.channels.Some?
    ensures !st.write ==> st.found && db.rules[st.tag].channels <= db.channels.Keys
                          && db.channelKeys.RefsOf(db.rules[st.tag].channels) == t.channels
    ensures !st.found ==> st.write
  {
    S.RulesExist(db, st.tag);
    hide S.Seen, S.Valid;
  }

  lemma WrittenChannels(db: S.Db, st: RuleStep, e: Option<RuleView>, t: RuleView, ids: set<S.Id>)
    requires S.Valid(db) && RuleMakes(st, e, t) && st.write && st.channels.Some? && forall k :: k in st.channels.value ==> k in db.channelKeys.idOf
    requires ids == (set k | k in st.channels.value :: db.channelKeys.idOf[k])
    ensures ids <= db.channels.Keys && db.channelKeys.RefsOf(ids) == t.channels
  {
    S.KeyedIdsExist(db, st.channels.value, ids);
    hide S.Seen, S.Valid;
  }

  /** The rule is there with its channels, its exclusions as they were. */
  method WriteRule(store: Store, st: RuleStep, ghost e: Option<RuleView>, ghost t: RuleView) returns (ok: bool, channels: set<S.Id>)
    requires S.Valid(store.db) && st.found == (st.tag in store.db.rules) && Get(S.Seen(store.db).rules, st.tag) == e && RuleMakes(st, e, t)
    requires st.excluded == (if st.found then store.db.rules[st.tag].excluded else {})
    requires st.channels.Some? ==> forall k :: k in st.channels.value ==> k in store.db.channelKeys.idOf
    modifies store
    ensures !ok ==> store.db == old(store.db)
    ensures ok ==> store.db == WithRow(old(store.db), st.tag, S.RuleRow(channels, st.excluded))
    ensures ok ==> channels <= store.db.channels.Keys && store.db.channelKeys.RefsOf(channels) == t.channels
  {
    hide S.Seen, S.Valid, RuleMakes, Refs, S.Keyring.RefsOf;
    WriteMeans(store.db, st, e, t);
    channels := {};
    if st.channels.Some? && st.write {
      channels := IdsFor(store.db.channelKeys.idOf, st.channels.value);
      WrittenChannels(store.db, st, e, t, channels);
    }
    if !st.found {
      ok := store.CreateRoutingRule(st.tag, channels);
    } else if st.write {
      ok := store.UpdateRoutingRule(st.tag, channels);
    } else {
      channels := store.db.rules[st.tag].channels;
      assert store.db.rules[st.tag := store.db.rules[st.tag]] == store.db.rules;
      ok := true;
    }
  }

  lemma HadExclusions(base: S.Db, tag: TagPair, e: Option<RuleView>, had: set<S.Id>)
    requires Get(S.Seen(base).rules, tag) == e && had == if tag in base.rules then base.rules[tag].excluded else {}
    ensures base.monitorKeys.RefsOf(had) == ExcludedBy(e)
  {
  }

  lemma StoppedAt(v: View, tag: TagPair, e: Option<RuleView>, t: RuleView, row: RuleView)
    requires Get(v.rules, tag) == e && row.channels == t.channels
    requires ExcludedBy(e) * t.excluded <= row.excluded <= ExcludedBy(e) + t.excluded
    ensures RuleStopped(v, v.(rules := v.rules[tag := row]), tag, e, t)
  {
  }

  /** A rule whose channels are written shows as stopped while its exclusions lie between the two sets,
      and as finished when they are the ones asked for. */
  lemma RuleShows(base: S.Db, tag: TagPair, e: Option<RuleView>, t: RuleView, row: S.RuleRow, want: set<S.Id>)
    requires S.Valid(base) && Get(S.Seen(base).rules, tag) == e && row.channels <= base.channels.Keys && row.excluded <= base.monitors.Keys
    requires base.channelKeys.RefsOf(row.channels) == t.channels && base.monitorKeys.RefsOf(want) == t.excluded
    requires var had := if tag in base.rules then base.rules[tag].excluded else {};
             (forall i :: i in had && i in want ==> i in row.excluded) && (forall i :: i in row.excluded ==> i in had || i in want)
    ensures var after := WithRow(base, tag, row);
            && S.Valid(after) && RuleStopped(S.Seen(base), S.Seen(after), tag, e, t)
            && (row.excluded == want ==> S.Seen(after) == S.Seen(base).(rules := S.Seen(base).rules[tag := t]))
  {
    hide S.Seen, S.Valid, RuleStopped, RuleHalf, ExcludedBy;
    var had := if tag in base.rules then base.rules[tag].excluded else {};
    S.RulesExist(base, tag);
    HadExclusions(base, tag, e, had);
    S.RefsBetween(base.monitorKeys, had, want, row.excluded);
    S.RuleUpdated(base, tag, row);
    StoppedAt(S.Seen(base), tag, e, t, S.RuleSeen(row, base.channelKeys, base.monitorKeys));
  }

  /** applyRule. */
  method ApplyRule(store: Store, st: RuleStep, ghost e: Option<RuleView>, ghost t: RuleView) returns (ok: bool)
    requires S.Valid(store.db) && st.found == (st.tag in store.db.rules) && Get(S.Seen(store.db).rules, st.tag) == e && RuleMakes(st, e, t)
    requires st.excluded == (if st.found then store.db.rules[st.tag].excluded else {})
    requires st.channels.Some? ==> forall k :: k in st.channels.value ==> k in store.db.channelKeys.idOf
    requires st.exclude.Some? ==> forall k :: k in st.exclude.value ==> k in store.db.monitorKeys.idOf
    modifies store
    ensures S.Valid(store.db) && OnlyRules(store.db, old(store.db)) && OnlyKey(store.db.rules, old(store.db).rules, st.tag)
    ensures ok ==> S.Seen(store.db) == old(S.Seen(store.db)).(rules := old(S.Seen(store.db)).rules[st.tag := t])
    ensures !ok ==> RuleStopped(old(S.Seen(store.db)), S.Seen(store.db), st.tag, e, t)
  {
    hide S.Seen, S.Valid, RuleStopped, RuleMakes;
    ghost var base := store.db;
    ExclusionsMean(base, st, e, t);
    Untouched(S.Seen(base), st.tag, e, t);
    var channels;
    ok, channels := WriteRule(store, st, e, t);
    if !ok { return; }
    if st.exclude.None? {
      RuleShows(base, st.tag, e, t, S.RuleRow(channels, st.excluded), st.excluded);
      return;
    }
    ok := SyncExclusions(store, st, e, t, channels, base);
  }

  lemma ExclusionsMean(base: S.Db, st: RuleStep, e: Option<RuleView>, t: RuleView)
    requires S.Valid(base) && st.found == (st.tag in base.rules) && Get(S.Seen(base).rules, st.tag) == e && RuleMakes(st, e, t)
    requires st.excluded == (if st.found then base.rules[st.tag].excluded else {})
    ensures st.excluded <= base.monitors.Keys
    ensures if st.exclude.Some? then t.excluded == Refs(st.exclude.value) else t.excluded == base.monitorKeys.RefsOf(st.excluded)
  {
    S.RulesExist(base, st.tag);
  }

  lemma Untouched(v: View, tag: TagPair, e: Option<RuleView>, t: RuleView)
    requires Get(v.rules, tag) == e
    ensures RuleStopped(v, v, tag, e, t)
  {
  }

  method SyncExclusions(store: Store, st: RuleStep, ghost e: Option<RuleView>, ghost t: RuleView, ghost channels: set<S.Id>, ghost base: S.Db)
    returns (ok: bool)
    requires S.Valid(base) && Get(S.Seen(base).rules, st.tag) == e && st.exclude.Some? && t.excluded == Refs(st.exclude.value)
    requires st.excluded == (if st.tag in base.rules then base.rules[st.tag].excluded else {}) && st.excluded <= base.monitors.Keys
    requires channels <= base.channels.Keys && base.channelKeys.RefsOf(channels) == t.channels
    requires store.db == WithRow(base, st.tag, S.RuleRow(channels, st.excluded))
    requires forall k :: k in st.exclude.value ==> k in base.monitorKeys.idOf
    modifies store
    ensures S.Valid(store.db) && OnlyRules(store.db, base) && OnlyKey(store.db.rules, base.rules, st.tag)
    ensures ok ==> S.Seen(store.db) == S.Seen(base).(rules := S.Seen(base).rules[st.tag := t])
    ensures !ok ==> RuleStopped(S.Seen(base), S.Seen(store.db), st.tag, e, t)
  {
    hide S.Seen, S.Valid, RuleStopped;
    var want := IdsFor(store.db.monitorKeys.idOf, st.exclude.value);
    S.KeyedMonitorsExist(base, st.exclude.value, want);
    ghost var now;
    ok, now := ExcludeAll(store, st.tag, channels, want, st.excluded, base);
    if ok { ok, now := IncludeAll(store, st.tag, channels, want, st.excluded, now, base); }
    forall i | i in now ensures i in base.monitors {}
    RuleShows(base, st.tag, e, t, S.RuleRow(channels, now), want);
  }

  // -------------------------------------------------------------------- the rules' loop

  ghost predicate RulePlanned(p: Platform, was: map<TagPair, RuleView>, rules: map<TagPair, S.RuleRow>, x: RuleEntry, st: RuleStep) {
    var e := Get(was, st.tag);
    && st.tag == RuleKey(p)(x) && st.found == (st.tag in rules)
    && st.excluded == (if st.found then rules[st.tag].excluded else {})
    && RuleRule(p)(e, x).Some? && RuleMakes(st, e, RuleRule(p)(e, x).value)
    && RuleSpares(st, e, RuleRule(p)(e, x).value)
  }

  function RulesDone(p: Platform, v: View, xs: seq<RuleEntry>, n: nat): View
    requires n <= |xs|
  {
    v.(rules := Applied(RuleRule(p), RuleKey(p), v.rules, xs, n))
  }

  ghost predicate RulesStopped(p: Platform, v: View, w: View, xs: seq<RuleEntry>) {
    w == v.(rules := w.rules) && Between(RuleRule(p), RuleParts(), RuleKey(p), v.rules, w.rules, xs)
  }

  lemma RuleAdvances(p: Platform, v: View, xs: seq<RuleEntry>, n: nat, tag: TagPair)
    requires n < |xs| && Distinct(RuleKey(p), xs) && Accepted(RuleRule(p), RuleKey(p), v.rules, xs) && tag == RuleKey(p)(xs[n])
    ensures var now := RulesDone(p, v, xs, n);
            && RuleRule(p)(Get(v.rules, tag), xs[n]).Some? && Get(now.rules, tag) == Get(v.rules, tag)
            && RulesDone(p, v, xs, n + 1) == now.(rules := now.rules[tag := RuleRule(p)(Get(v.rules, tag), xs[n]).value])
  {
    AppliedAt(RuleRule(p), RuleKey(p), v.rules, xs, n, tag);
  }

  lemma RuleStops(p: Platform, v: View, xs: seq<RuleEntry>, n: nat, tag: TagPair, w: View)
    requires n < |xs| && Distinct(RuleKey(p), xs) && Accepted(RuleRule(p), RuleKey(p), v.rules, xs) && tag == RuleKey(p)(xs[n])
    requires RuleRule(p)(Get(v.rules, tag), xs[n]).Some?
    requires RuleStopped(RulesDone(p, v, xs, n), w, tag, Get(v.rules, tag), RuleRule(p)(Get(v.rules, tag), xs[n]).value)
    ensures RulesStopped(p, v, w, xs)
  {
    StoppedIsBetween(RuleRule(p), RuleParts(), RuleKey(p), v.rules, xs, n, w.rules);
  }

  ghost predicate RulesPlanned(p: Platform, was: map<TagPair, RuleView>, rules: map<TagPair, S.RuleRow>, xs: seq<RuleEntry>, steps: seq<RuleStep>) {
    |steps| == |xs| && forall i :: 0 <= i < |xs| ==> RulePlanned(p, was, rules, xs[i], steps[i])
  }

  ghost predicate RuleRefsIn(steps: seq<RuleStep>, channels: set<Key>, monitors: set<Key>) {
    forall i :: 0 <= i < |steps| ==> Known(steps[i].channels, channels) && Known(steps[i].exclude, monitors)
  }

  method ApplyRules(store: Store, p: Platform, steps: seq<RuleStep>, ghost v: View, ghost xs: seq<RuleEntry>) returns (ok: bool)
    requires S.Valid(store.db) && S.Seen(store.db) == v && RulesPlanned(p, v.rules, store.db.rules, xs, steps)
    requires Distinct(RuleKey(p), xs) && Accepted(RuleRule(p), RuleKey(p), v.rules, xs)
    requires RuleRefsIn(steps, store.db.channelKeys.idOf.Keys, store.db.monitorKeys.idOf.Keys)
    modifies store
    ensures S.Valid(store.db) && OnlyRules(store.db, old(store.db))
    ensures ok ==> S.Seen(store.db) == RulesDone(p, v, xs, |xs|)
    ensures !ok ==> RulesStopped(p, v, S.Seen(store.db), xs)
  {
    hide S.Seen, S.Valid, NextRule, RuleMakes, RuleSpares, RuleStopped, RulesStopped, Accepted, RulePair, TagPairOf;
    var i := 0;
    while i < |steps|
      invariant 0 <= i <= |steps| && S.Valid(store.db) && OnlyRules(store.db, old(store.db))
      invariant S.Seen(store.db) == RulesDone(p, v, xs, i)
      invariant forall j :: i <= j < |steps| ==> Get(store.db.rules, steps[j].tag) == Get(old(store.db).rules, steps[j].tag)
    {
      ghost var e, t := Get(v.rules, steps[i].tag), RuleRule(p)(Get(v.rules, steps[i].tag), xs[i]).value;
      RuleAdvances(p, v, xs, i, steps[i].tag);
      assert Known(steps[i].channels, store.db.channelKeys.idOf.Keys) && Known(steps[i].exclude, store.db.monitorKeys.idOf.Keys);
      assert Get(store.db.rules, steps[i].tag) == Get(old(store.db).rules, steps[i].tag);
      ok := ApplyRule(store, steps[i], e, t);
      if !ok {
        RuleStops(p, v, xs, i, steps[i].tag, S.Seen(store.db));
        return;
      }
      forall j | i < j < |steps| ensures steps[j].tag != steps[i].tag {
        assert RuleKey(p)(xs[i]) != RuleKey(p)(xs[j]);
      }
      i := i + 1;
    }
    ok := true;
  }

  // ------------------------------------------------------------------ the windows' loop

  ghost predicate WindowPlanned(w: Window, st: WindowStep) {
    st.window == w && w.monitor == if st.monitor == "" then None else Some(Keyed(st.monitor))
  }

  ghost predicate WindowsPlanned(p: Platform, all: seq<Window>, steps: seq<WindowStep>) {
    |steps| == |all| && forall i :: 0 <= i < |all| ==> WindowPlanned(all[i], steps[i]) && Storable(p, all[i])
  }

  ghost predicate WindowRefsIn(steps: seq<WindowStep>, monitors: set<Key>) {
    forall i :: 0 <= i < |steps| ==> steps[i].monitor == "" || steps[i].monitor in monitors
  }

  lemma WindowStepCount(p: Platform, all: seq<Window>, steps: seq<WindowStep>)
    requires WindowsPlanned(p, all, steps)
    ensures |steps| == |all|
  {
  }

  lemma WindowStepAt(p: Platform, all: seq<Window>, steps: seq<WindowStep>, i: nat, monitors: set<Key>)
    requires WindowsPlanned(p, all, steps) && WindowRefsIn(steps, monitors) && i < |all| == |steps|
    ensures WindowPlanned(all[i], steps[i]) && Storable(p, all[i]) && (steps[i].monitor == "" || steps[i].monitor in monitors)
  {
  }

  method ApplyWindows(store: Store, p: Platform, steps: seq<WindowStep>, ghost v: View, ghost all: seq<Window>) returns (ok: bool)
    requires S.Valid(store.db) && S.Seen(store.db) == v && (all == [] || |v.windows| + |all| <= WindowLimit)
    requires WindowsPlanned(p, all, steps) && WindowRefsIn(steps, store.db.monitorKeys.idOf.Keys)
    modifies store
    ensures S.Valid(store.db) && store.db == old(store.db).(windows := store.db.windows)
    ensures ok ==> S.Seen(store.db) == v.(windows := v.windows + all)
    ensures !ok ==> exists j :: 0 <= j <= |all| && S.Seen(store.db) == v.(windows := v.windows + all[..j])
  {
    hide S.Seen, S.Valid, Storable, WindowsPlanned, WindowRefsIn;
    S.KeyIdsExist(store.db);
    S.RingsValid(store.db);
    WindowStepCount(p, all, steps);
    var i := 0;
    assert v.windows + all[..0] == v.windows;
    while i < |steps|
      invariant 0 <= i <= |steps| && S.Valid(store.db) && store.db == old(store.db).(windows := store.db.windows)
      invariant S.Seen(store.db) == v.(windows := v.windows + all[..i])
    {
      WindowStepAt(p, all, steps, i, store.db.monitorKeys.idOf.Keys);
      var st := steps[i];
      var row := S.WindowRow(st.window, if st.monitor == "" then None else Some(store.db.monitorKeys.idOf[st.monitor]));
      assert S.WindowSeen(row, store.db.monitorKeys) == all[i];
      S.WindowAdded(store.db, row);
      S.WindowCount(store.db);
      ok := store.CreateMaintenance(p, row);
      if !ok { return; }
      assert all[..i + 1] == all[..i] + [all[i]];
      assert v.windows + all[..i + 1] == (v.windows + all[..i]) + [all[i]];
      i := i + 1;
    }
    assert all[..|all|] == all;
    ok := true;
  }
}
