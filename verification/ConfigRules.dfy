/** Routing rules and maintenance windows in an import (planRule, planWindow, sameIDs and sameWindow,
    internal/api/config_import.go; NormaliseMaintenance, internal/store/maintenance.go). */
module ConfigRules {
  import opened Prelude
  import opened ConfigModel

  // -------------------------------------------------------------------------- tag pairs

  function TagPairOf(p: Platform, key: string, value: string): TagPair { TagPair(p.lower(TrimSpace(key)), TrimSpace(value)) }

  /** NormaliseRoutingTagEdit: a saved pair keeps a control character it was saved with. */
  predicate TagOk(p: Platform, t: TagPair, saved: bool) {
    p.tagKeyOk(t.key) && t.value != "" && |t.value| <= 64 && (HasControlCharacter(t.value) ==> saved)
  }

  lemma TagPairTwice(p: Platform, key: string, value: string)
    requires Dependable(p)
    ensures var t := TagPairOf(p, key, value); TagPairOf(p, t.key, t.value) == t
  {
    TrimIdempotent(value);
    assert TrimSpaceFixed(p.lower(TrimSpace(key)));
  }

  // ------------------------------------------------------------------------------ rules

  function RulePair(p: Platform, x: RuleEntry): TagPair { TagPairOf(p, x.tagKey, x.tagValue) }

  function ExcludedBy(v: Option<RuleView>): set<Ref> { if v.Some? then v.value.excluded else {} }

  /** The rule an entry leaves: a list left out keeps what the rule has. */
  function NextRule(p: Platform, v: Option<RuleView>, x: RuleEntry): Option<RuleView> {
    if !TagOk(p, RulePair(p, x), v.Some?) then None else
    Some(RuleView(
      if x.channels.Some? then Refs(x.channels.value) else if v.Some? then v.value.channels else {},
      if x.exclude.Some? then Refs(x.exclude.value) else ExcludedBy(v)))
  }

  /** A rule is written with its channels at once and its exclusions one by one. */
  ghost predicate RuleHalf(v: Option<RuleView>, s: Option<RuleView>, t: RuleView) {
    || s == v
    || (&& s.Some? && s.value.channels == t.channels
        && ExcludedBy(v) * t.excluded <= s.value.excluded <= ExcludedBy(v) + t.excluded)
  }

  lemma RuleStable(p: Platform, v: Option<RuleView>, s: Option<RuleView>, x: RuleEntry, t: RuleView)
    requires NextRule(p, v, x) == Some(t) && RuleHalf(v, s, t)
    ensures NextRule(p, s, x) == Some(t)
  {
    if x.exclude.None? && s != v { assert s.value.excluded == ExcludedBy(v); }
  }

  // ---------------------------------------------------------------------------- windows

  const WindowLimit := 200

  predicate SavedName(ws: seq<Window>, name: string) { HasControlCharacter(name) && exists w :: w in ws && w.name == name }

  predicate SavedTag(ws: seq<Window>, t: TagPair) {
    HasControlCharacter(t.value) && exists w :: w in ws && w.tagKey == t.key && w.tagValue == t.value
  }

  /** store.NormaliseMaintenance accepts w and leaves it as it is: what a create requires. */
  predicate Storable(p: Platform, w: Window) {
    && TrimSpaceFixed(w.name) && w.name != "" && !HasControlCharacter(w.name) && TrimSpaceFixed(w.timezone)
    && w.monitor.Some? == (w.tagKey == "") && (w.tagKey == "" ==> w.tagValue == "")
    && (w.tagKey != "" ==> TagPairOf(p, w.tagKey, w.tagValue) == TagPair(w.tagKey, w.tagValue)
                           && TagOk(p, TagPair(w.tagKey, w.tagValue), false))
    && p.windowOk(w)
  }

  /** The window an entry describes, in the form a save stores it. */
  function WindowOf(p: Platform, x: WindowEntry): Window {
    var t := TagPairOf(p, x.tagKey, x.tagValue);
    Window(TrimSpace(x.name), if x.monitor == "" then None else Some(Keyed(x.monitor)), t.key, t.value,
           x.starts.GetOr(NoTime), x.ends.GetOr(NoTime), TrimSpace(x.timezone), multiset(x.weekdays), x.localTime, x.duration)
  }

  /** A name or tag saved before control characters were refused is judged by a stand-in, and the
      window is then kept only when it is already here. */
  function NextWindow(p: Platform, ws: seq<Window>, x: WindowEntry): Option<Window> {
    var w := WindowOf(p, x);
    var savedName, savedTag := SavedName(ws, w.name), SavedTag(ws, TagPair(w.tagKey, w.tagValue));
    var judged := w.(name := if savedName then "-" else w.name, tagValue := if savedTag then "-" else w.tagValue);
    if Storable(p, judged) && (savedName || savedTag ==> w in ws) then Some(w) else None
  }

  function Described(p: Platform, xs: seq<WindowEntry>): seq<Window> { seq(|xs|, i requires 0 <= i < |xs| => WindowOf(p, xs[i])) }

  /** Of the first n things asked for, those not there yet, in order. */
  function Fresh<T(==)>(there: seq<T>, asked: seq<T>, n: nat): seq<T>
    requires n <= |asked|
  {
    if n == 0 then [] else if asked[n - 1] in there then Fresh(there, asked, n - 1) else Fresh(there, asked, n - 1) + [asked[n - 1]]
  }

  lemma {:induction false} FreshIsNew<T>(there: seq<T>, asked: seq<T>, n: nat)
    requires n <= |asked|
    ensures Fresh(there, asked, n) == [] <==> forall i :: 0 <= i < n ==> asked[i] in there
  {
    if n > 0 { FreshIsNew(there, asked, n - 1); }
  }

  /** The windows an import would create, in file order. */
  function NewWindows(p: Platform, ws: seq<Window>, xs: seq<WindowEntry>): seq<Window> { Fresh(ws, Described(p, xs), |xs|) }

  ghost predicate WindowsAccepted(p: Platform, ws: seq<Window>, xs: seq<WindowEntry>) {
    && (forall i :: 0 <= i < |xs| ==> NextWindow(p, ws, xs[i]).Some?)
    && (NewWindows(p, ws, xs) == [] || |ws| + |NewWindows(p, ws, xs)| <= WindowLimit)
  }

  /** now is was with the first windows of the file's new ones appended. */
  ghost predicate WindowsBetween(p: Platform, was: seq<Window>, now: seq<Window>, xs: seq<WindowEntry>) {
    var all := NewWindows(p, was, xs);
    exists j :: 0 <= j <= |all| && now == was + all[..j]
  }

  lemma NewIsStorable(p: Platform, ws: seq<Window>, x: WindowEntry)
    requires NextWindow(p, ws, x).Some? && WindowOf(p, x) !in ws
    ensures Storable(p, WindowOf(p, x))
  {
  }

  /** Windows an import has added do not change what an entry describes. */
  lemma WindowAgain(p: Platform, was: seq<Window>, now: seq<Window>, x: WindowEntry)
    requires NextWindow(p, was, x).Some? && forall w :: w in was ==> w in now
    ensures NextWindow(p, now, x) == NextWindow(p, was, x)
  {
    var w := WindowOf(p, x);
    var t := TagPair(w.tagKey, w.tagValue);
    if HasControlCharacter(w.name) { assert SavedName(was, w.name) && SavedName(now, w.name); }
    if HasControlCharacter(t.value) {
      assert t.value != "";
      assert SavedTag(was, t) && SavedTag(now, t);
    }
  }

  lemma {:induction false} FreshGrows<T>(there: seq<T>, asked: seq<T>, n: nat, k: nat)
    requires n <= k <= |asked|
    ensures |Fresh(there, asked, n)| <= |Fresh(there, asked, k)|
    ensures forall q :: 0 <= q < |Fresh(there, asked, n)| ==> Fresh(there, asked, k)[q] == Fresh(there, asked, n)[q]
  {
    if n < k { FreshGrows(there, asked, n, k - 1); }
  }

  /** After j of the fresh things were made, no more than the rest are still fresh, and made and fresh
      together are what was asked for. */
  lemma {:induction false} RestOfFresh<T>(was: seq<T>, asked: seq<T>, j: nat, n: nat)
    requires n <= |asked| && j <= |Fresh(was, asked, |asked|)|
    ensures var now := was + Fresh(was, asked, |asked|)[..j];
            var all, rest := Fresh(was, asked, n), Fresh(now, asked, n);
            && |rest| + (if j < |all| then j else |all|) <= |all|
            && (forall w :: w in rest ==> w in all)
            && (forall w :: w in all ==> w in now || w in rest)
  {
    if n > 0 {
      RestOfFresh(was, asked, j, n - 1);
      FreshGrows(was, asked, n, |asked|);
      var full := Fresh(was, asked, |asked|);
      var now, w, q := was + full[..j], asked[n - 1], |Fresh(was, asked, n - 1)|;
      if w in was {
        assert w in now;
      } else if q < j {
        assert Fresh(was, asked, n)[q] == w == full[..j][q];
        assert w in now;
      }
    }
  }

  /** From wherever the first attempt stopped, the same windows are accepted, the limit still holds, and
      the instance ends with the same windows, counted once each. */
  lemma WindowsConverge(p: Platform, was: seq<Window>, now: seq<Window>, xs: seq<WindowEntry>)
    requires WindowsAccepted(p, was, xs) && WindowsBetween(p, was, now, xs)
    ensures WindowsAccepted(p, now, xs)
    ensures forall w :: w in now + NewWindows(p, now, xs) <==> w in was + NewWindows(p, was, xs)
  {
    var all := NewWindows(p, was, xs);
    var j :| 0 <= j <= |all| && now == was + all[..j];
    RestOfFresh(was, Described(p, xs), j, |xs|);
    forall i | 0 <= i < |xs| ensures NextWindow(p, now, xs[i]).Some? { WindowAgain(p, was, now, xs[i]); }
  }

  /** Once every new window is there, none is new. */
  lemma NothingNew(p: Platform, was: seq<Window>, xs: seq<WindowEntry>)
    ensures NewWindows(p, was + NewWindows(p, was, xs), xs) == []
  {
    var all := NewWindows(p, was, xs);
    RestOfFresh(was, Described(p, xs), |all|, |xs|);
    assert all[..|all|] == all;
  }
}
