/** Writing the status pages of a plan (applyPage, internal/api/config_status_pages.go). Since any call can
    fail, what holds after a failure holds after every prefix of the calls: see PageStopped and
    NeverShownHalfBuilt. */
module ConfigApplyPages {
  import opened Prelude
  import opened KeyedMerge
  import opened ConfigModel
  import opened ConfigRules
  import opened ConfigPages
  import opened ConfigSpec
  import S = ConfigStore
  import opened ConfigCalls
  import opened ConfigSteps

  /** Only the page under slug moved, to a state its writing can stop in. */
  ghost predicate PageStopped(a: View, b: View, slug: string, e: Option<PageView>, t: PageView) {
    b == a.(pages := b.pages) && PageHalf(e, Get(b.pages, slug), t) && OnlyKey(b.pages, a.pages, slug)
  }

  function Row(base: S.Db, slug: string, page: Page, entries: seq<S.EntryRow>): S.Db {
    base.(pages := base.pages[slug := S.PageRow(page, entries)])
  }

  /** The rows a list of entries is stored as. */
  function RowsFor(ids: map<Key, S.Id>, list: seq<PageMonitor>): seq<S.EntryRow>
    requires forall m :: m in list ==> m.monitor in ids
  {
    seq(|list|, i requires 0 <= i < |list| => S.EntryRow(ids[list[i].monitor], TrimSpace(list[i].name)))
  }

  method EntryRows(ids: map<Key, S.Id>, list: seq<PageMonitor>) returns (rows: seq<S.EntryRow>)
    requires forall m :: m in list ==> m.monitor in ids
    ensures rows == RowsFor(ids, list)
  {
    rows := [];
    for i := 0 to |list|
      invariant |rows| == i && forall j :: 0 <= j < i ==> rows[j] == S.EntryRow(ids[list[j].monitor], TrimSpace(list[j].name))
    {
      assert list[i] in list;
      rows := rows + [S.EntryRow(ids[list[i].monitor], TrimSpace(list[i].name))];
    }
  }

  lemma RowsShow(ring: S.Keyring, list: seq<PageMonitor>)
    requires ring.Valid() && forall m :: m in list ==> m.monitor in ring.idOf
    ensures S.EntriesSeen(RowsFor(ring.idOf, list), ring) == EntriesOf(list)
  {
    forall i | 0 <= i < |list| ensures ring.RefOf(ring.idOf[list[i].monitor]) == Keyed(list[i].monitor) {
      assert list[i] in list;
    }
  }

  /** What the plan accepted is what the store asks of the rows. */
  lemma RowsAccepted(ring: S.Keyring, list: seq<PageMonitor>, had: seq<S.EntryRow>)
    requires ring.Valid() && (forall m :: m in list ==> m.monitor in ring.idOf) && EntriesOk(list, S.EntriesSeen(had, ring))
    ensures var rows := RowsFor(ring.idOf, list);
            && |rows| <= MaxEntries && (forall i, j :: 0 <= i < j < |rows| ==> rows[i].monitor != rows[j].monitor)
            && (forall i :: 0 <= i < |rows| ==> TrimSpaceFixed(rows[i].name) && DisplayNameOk(rows[i].name, rows[i] in had))
  {
    var rows, seen := RowsFor(ring.idOf, list), S.EntriesSeen(had, ring);
    forall i, j | 0 <= i < j < |rows| ensures rows[i].monitor != rows[j].monitor {
      assert list[i] in list && list[j] in list;
      assert ring.keyOf[rows[i].monitor] == list[i].monitor && ring.keyOf[rows[j].monitor] == list[j].monitor;
    }
    forall i | 0 <= i < |rows| ensures EntriesOf(list)[i] in seen ==> rows[i] in had {
      assert list[i] in list;
      if EntriesOf(list)[i] in seen {
        var j :| 0 <= j < |seen| && seen[j] == EntriesOf(list)[i];
        assert ring.RefOf(had[j].monitor) == Keyed(list[i].monitor);
        assert had[j] == rows[i];
      }
    }
  }

  lemma NormalDraft(p: Platform, t: Page)
    requires NormalPage(p, t, None) == Some(t)
    ensures NormalPage(p, Draft(t), None) == Some(Draft(t))
    ensures forall now :: NormalPage(p, t, Some(now)) == Some(t)
  {
  }

  /** A page on its own in the store and in the view. */
  lemma RowShows(base: S.Db, slug: string, page: Page, entries: seq<S.EntryRow>)
    requires S.Valid(base) && forall e :: e in entries ==> e.monitor in base.monitors
    ensures S.Valid(Row(base, slug, page, entries))
    ensures S.Seen(Row(base, slug, page, entries)) == S.Seen(base).(
      pages := S.Seen(base).pages[slug := PageView(page, S.EntriesSeen(entries, base.monitorKeys))])
  {
    hide S.Seen, S.Valid;
    S.PageUpdated(base, slug, S.PageRow(page, entries));
  }

  lemma Stops(base: S.Db, slug: string, page: Page, entries: seq<S.EntryRow>, e: Option<PageView>, t: PageView)
    requires S.Valid(base) && forall r :: r in entries ==> r.monitor in base.monitors
    requires PageHalf(e, Some(PageView(page, S.EntriesSeen(entries, base.monitorKeys))), t)
    ensures S.Valid(Row(base, slug, page, entries))
    ensures PageStopped(S.Seen(base), S.Seen(Row(base, slug, page, entries)), slug, e, t)
    ensures PageView(page, S.EntriesSeen(entries, base.monitorKeys)) == t ==>
      S.Seen(Row(base, slug, page, entries)) == S.Seen(base).(pages := S.Seen(base).pages[slug := t])
  {
    hide S.Seen, S.Valid, PageHalf;
    RowShows(base, slug, page, entries);
  }

  /** The page's first call: a draft of a new page, or the whole of one that ends switched off. */
  method StartPage(store: Store, p: Platform, st: PageStep, ghost e: Option<PageView>, ghost t: PageView) returns (ok: bool, write: bool)
    requires st.found == (st.slug in store.db.pages) && PageMakes(p, st, e, t)
    requires st.found ==> e == Some(S.PageSeen(store.db.pages[st.slug], store.db.monitorKeys))
    modifies store
    ensures !ok ==> store.db == old(store.db)
    ensures ok ==> store.db == Row(old(store.db), st.slug, Begun(st, e, t), if st.found then old(store.db).pages[st.slug].entries else [])
    ensures ok ==> write == (if st.found then st.write && st.page.enabled else st.page.enabled)
  {
    hide NormalPage, EntriesOk;
    ghost var base := store.db;
    var publish := st.page.enabled;
    if !st.found {
      NormalDraft(p, t.page);
      ok := store.CreateStatusPage(p, st.slug, Draft(st.page));
      return ok, publish;
    }
    assert base.pages[st.slug := base.pages[st.slug]] == base.pages;
    write := st.write;
    ok := true;
    if st.write && !publish {
      ok := store.UpdateStatusPage(p, st.slug, st.page);
      write := false;
    }
  }

  /** The settings a page has once its first call is made. */
  ghost function Begun(st: PageStep, e: Option<PageView>, t: PageView): Page {
    if e.None? then Draft(t.page) else if t.page.enabled then e.value.page else t.page
  }

  method WriteEntries(store: Store, st: PageStep, list: seq<PageMonitor>, ghost base: S.Db, ghost page: Page, ghost had: seq<S.EntryRow>)
    returns (ok: bool)
    requires base.monitorKeys.Valid() && forall k :: k in base.monitorKeys.idOf ==> base.monitorKeys.idOf[k] in base.monitors
    requires store.db == Row(base, st.slug, page, had) && EntriesOk(list, S.EntriesSeen(had, base.monitorKeys))
    requires forall m :: m in list ==> m.monitor in base.monitorKeys.idOf
    modifies store
    ensures !ok ==> store.db == old(store.db)
    ensures ok ==> store.db == Row(base, st.slug, page, RowsFor(base.monitorKeys.idOf, list))
    ensures S.EntriesSeen(RowsFor(base.monitorKeys.idOf, list), base.monitorKeys) == EntriesOf(list)
    ensures forall r :: r in RowsFor(base.monitorKeys.idOf, list) ==> r.monitor in base.monitors
  {
    hide EntriesOk, DisplayNameOk;
    RowsShow(base.monitorKeys, list);
    RowsAccepted(base.monitorKeys, list, had);
    var rows := EntryRows(store.db.monitorKeys.idOf, list);
    forall i | 0 <= i < |rows| ensures rows[i].monitor in base.monitors { assert list[i] in list; }
    ok := store.SetStatusPageEntries(st.slug, rows);
  }

  /** The entries a page has before it is written, as the view shows them. */
  lemma HadEntries(base: S.Db, st: PageStep, e: Option<PageView>, t: PageView, p: Platform, had: seq<S.EntryRow>)
    requires S.Valid(base) && st.found == (st.slug in base.pages) && Get(S.Seen(base).pages, st.slug) == e && PageMakes(p, st, e, t)
    requires had == if st.found then base.pages[st.slug].entries else []
    ensures S.EntriesSeen(had, base.monitorKeys) == EntriesIn(e) && forall r :: r in had ==> r.monitor in base.monitors
    ensures st.found ==> e == Some(S.PageSeen(base.pages[st.slug], base.monitorKeys)) && base.pages[st.slug].page == e.value.page
    ensures st.found == e.Some? && base.monitorKeys.Valid()
    ensures forall k :: k in base.monitorKeys.idOf ==> base.monitorKeys.idOf[k] in base.monitors
  {
    hide S.Seen, S.Valid, NormalPage, EntriesOk;
    S.PageExists(base, st.slug);
  }

  /** The page's entries, once its first call is made. */
  method FillPage(store: Store, st: PageStep, ghost t: PageView, ghost base: S.Db, ghost page: Page, ghost had: seq<S.EntryRow>)
    returns (ok: bool, ghost rows: seq<S.EntryRow>)
    requires base.monitorKeys.Valid() && forall k :: k in base.monitorKeys.idOf ==> base.monitorKeys.idOf[k] in base.monitors
    requires store.db == Row(base, st.slug, page, had) && forall r :: r in had ==> r.monitor in base.monitors
    requires st.monitors.Some? ==> forall m :: m in st.monitors.value ==> m.monitor in base.monitorKeys.idOf
    requires if st.monitors.Some? then EntriesOk(st.monitors.value, S.EntriesSeen(had, base.monitorKeys)) && t.entries == EntriesOf(st.monitors.value)
             else t.entries == S.EntriesSeen(had, base.monitorKeys)
    modifies store
    ensures !ok ==> store.db == old(store.db)
    ensures ok ==> store.db == Row(base, st.slug, page, rows)
    ensures S.EntriesSeen(rows, base.monitorKeys) == t.entries && forall r :: r in rows ==> r.monitor in base.monitors
  {
    hide EntriesOk, EntriesOf, S.EntriesSeen, Row, RowsFor;
    rows, ok := had, true;
    if st.monitors.Some? {
      ok := WriteEntries(store, st, st.monitors.value, base, page, had);
      rows := RowsFor(base.monitorKeys.idOf, st.monitors.value);
    }
  }

  /** applyPage: a page created switched on is created switched off, given its entries and only then
      switched on; one that ends switched off is switched off before its entries change. */
  method ApplyPage(store: Store, p: Platform, st: PageStep, ghost e: Option<PageView>, ghost t: PageView) returns (ok: bool)
    requires S.Valid(store.db) && st.found == (st.slug in store.db.pages) && Get(S.Seen(store.db).pages, st.slug) == e && PageMakes(p, st, e, t)
    requires st.monitors.Some? ==> forall m :: m in st.monitors.value ==> m.monitor in store.db.monitorKeys.idOf
    modifies store
    ensures S.Valid(store.db) && store.db == old(store.db).(pages := store.db.pages)
    ensures OnlyKey(store.db.pages, old(store.db).pages, st.slug)
    ensures ok ==> S.Seen(store.db) == old(S.Seen(store.db)).(pages := old(S.Seen(store.db)).pages[st.slug := t])
    ensures !ok ==> PageStopped(old(S.Seen(store.db)), S.Seen(store.db), st.slug, e, t)
  {
    hide S.Seen, S.Valid, NormalPage, EntriesOk, PageStopped, PageMakes, PageHalf, S.EntriesSeen, EntriesOf, EntriesIn, RowsFor, Begun;
    ghost var base, begun := store.db, Begun(st, e, t);
    ghost var had, rows := if st.found then base.pages[st.slug].entries else [], [];
    HadEntries(base, st, e, t, p, had);
    Untouched(S.Seen(base), st.slug, e, t);
    EntriesAccepted(p, st, e, t);
    var write;
    ok, write := StartPage(store, p, st, e, t);
    if !ok { return; }
    StopsBegun(base, st, e, t, p, had);
    ok, rows := FillPage(store, st, t, base, begun, had);
    if !ok { return; }
    StopsFilled(base, st, e, t, p, rows, write);
    if write {
      ok := store.UpdateStatusPage(p, st.slug, st.page);
      assert ok ==> store.db == Row(base, st.slug, t.page, rows);
    }
  }

  lemma EntriesAccepted(p: Platform, st: PageStep, e: Option<PageView>, t: PageView)
    requires PageMakes(p, st, e, t)
    ensures if st.monitors.Some? then EntriesOk(st.monitors.value, EntriesIn(e)) && t.entries == EntriesOf(st.monitors.value)
            else t.entries == EntriesIn(e)
  {
  }

  /** Once begun, the page is at a place its writing can stop. */
  lemma StopsBegun(base: S.Db, st: PageStep, e: Option<PageView>, t: PageView, p: Platform, had: seq<S.EntryRow>)
    requires S.Valid(base) && PageMakes(p, st, e, t) && S.EntriesSeen(had, base.monitorKeys) == EntriesIn(e)
    requires Get(S.Seen(base).pages, st.slug) == e && forall r :: r in had ==> r.monitor in base.monitors
    requires e.Some? ==> st.slug in base.pages && base.pages[st.slug].entries == had && base.pages[st.slug].page == e.value.page
    ensures S.Valid(Row(base, st.slug, Begun(st, e, t), had))
    ensures PageStopped(S.Seen(base), S.Seen(Row(base, st.slug, Begun(st, e, t), had)), st.slug, e, t)
  {
    hide S.Seen, S.Valid, NormalPage, EntriesOk;
    Stops(base, st.slug, Begun(st, e, t), had, e, t);
  }

  /** With its entries in, the page is finished or only its settings are left to write. */
  lemma StopsFilled(base: S.Db, st: PageStep, e: Option<PageView>, t: PageView, p: Platform, rows: seq<S.EntryRow>, write: bool)
    requires S.Valid(base) && PageMakes(p, st, e, t) && S.EntriesSeen(rows, base.monitorKeys) == t.entries
    requires forall r :: r in rows ==> r.monitor in base.monitors
    requires write == (if st.found then st.write && st.page.enabled else st.page.enabled)
    ensures var begun := Row(base, st.slug, Begun(st, e, t), rows);
            && S.Valid(begun) && PageStopped(S.Seen(base), S.Seen(begun), st.slug, e, t)
            && (!write ==> S.Seen(begun) == S.Seen(base).(pages := S.Seen(base).pages[st.slug := t]))
    ensures S.Valid(Row(base, st.slug, t.page, rows))
    ensures S.Seen(Row(base, st.slug, t.page, rows)) == S.Seen(base).(pages := S.Seen(base).pages[st.slug := t])
    ensures st.page == t.page && NormalPage(p, t.page, Some(Begun(st, e, t))) == Some(t.page)
  {
    hide S.Seen, S.Valid, EntriesOk;
    assert NormalPage(p, t.page, Some(Begun(st, e, t))) == Some(t.page);
    hide NormalPage;
    Stops(base, st.slug, Begun(st, e, t), rows, e, t);
    Stops(base, st.slug, t.page, rows, e, t);
  }

  lemma Untouched(v: View, slug: string, e: Option<PageView>, t: PageView)
    requires Get(v.pages, slug) == e
    ensures PageStopped(v, v, slug, e, t)
  {
  }

  // -------------------------------------------------------------------- the pages' loop

  ghost predicate PagePlanned(p: Platform, was: map<string, PageView>, pages: map<string, S.PageRow>, x: PageEntry, st: PageStep) {
    var e := Get(was, st.slug);
    && st.slug == PageKey(p)(x) && st.found == (st.slug in pages)
    && PageRule(p)(e, x).Some? && PageMakes(p, st, e, PageRule(p)(e, x).value)
    && PageSpares(st, e, PageRule(p)(e, x).value)
  }

  function PagesDone(p: Platform, v: View, xs: seq<PageEntry>, n: nat): View
    requires n <= |xs|
  {
    v.(pages := Applied(PageRule(p), PageKey(p), v.pages, xs, n))
  }

  ghost predicate PagesStopped(p: Platform, v: View, w: View, xs: seq<PageEntry>) {
    w == v.(pages := w.pages) && Between(PageRule(p), PageParts(), PageKey(p), v.pages, w.pages, xs)
  }

  lemma PageAdvances(p: Platform, v: View, xs: seq<PageEntry>, n: nat, slug: string)
    requires n < |xs| && Distinct(PageKey(p), xs) && Accepted(PageRule(p), PageKey(p), v.pages, xs) && slug == PageKey(p)(xs[n])
    ensures var now := PagesDone(p, v, xs, n);
            && PageRule(p)(Get(v.pages, slug), xs[n]).Some? && Get(now.pages, slug) == Get(v.pages, slug)
            && PagesDone(p, v, xs, n + 1) == now.(pages := now.pages[slug := PageRule(p)(Get(v.pages, slug), xs[n]).value])
  {
    hide NextPage;
    AppliedAt(PageRule(p), PageKey(p), v.pages, xs, n, slug);
  }

  lemma PageStops(p: Platform, v: View, xs: seq<PageEntry>, n: nat, slug: string, w: View)
    requires n < |xs| && Distinct(PageKey(p), xs) && Accepted(PageRule(p), PageKey(p), v.pages, xs) && slug == PageKey(p)(xs[n])
    requires PageRule(p)(Get(v.pages, slug), xs[n]).Some?
    requires PageStopped(PagesDone(p, v, xs, n), w, slug, Get(v.pages, slug), PageRule(p)(Get(v.pages, slug), xs[n]).value)
    ensures PagesStopped(p, v, w, xs)
  {
    hide NextPage;
    StoppedIsBetween(PageRule(p), PageParts(), PageKey(p), v.pages, xs, n, w.pages);
  }

  /** A page with nothing to write has no step in the source's plan. */
  lemma NothingToWrite(p: Platform, st: PageStep, e: Option<PageView>, t: PageView, pages: map<string, PageView>)
    requires PageMakes(p, st, e, t) && !st.write && st.monitors.None? && Get(pages, st.slug) == e
    ensures pages[st.slug := t] == pages
  {
  }

  ghost predicate PagesPlanned(p: Platform, was: map<string, PageView>, pages: map<string, S.PageRow>, xs: seq<PageEntry>, steps: seq<PageStep>) {
    |steps| == |xs| && forall i :: 0 <= i < |xs| ==> PagePlanned(p, was, pages, xs[i], steps[i])
  }

  ghost predicate PageRefsIn(steps: seq<PageStep>, monitors: set<Key>) {
    forall i :: 0 <= i < |steps| && steps[i].monitors.Some? ==> forall m :: m in steps[i].monitors.value ==> m.monitor in monitors
  }

  lemma StepCount(p: Platform, was: map<string, PageView>, pages: map<string, S.PageRow>, xs: seq<PageEntry>, steps: seq<PageStep>)
    requires PagesPlanned(p, was, pages, xs, steps)
    ensures |steps| == |xs|
  {
  }

  lemma StepAt(p: Platform, was: map<string, PageView>, pages: map<string, S.PageRow>, xs: seq<PageEntry>, steps: seq<PageStep>, i: nat, monitors: set<Key>)
    requires PagesPlanned(p, was, pages, xs, steps) && PageRefsIn(steps, monitors) && i < |xs| == |steps|
    ensures steps[i].slug == PageKey(p)(xs[i]) && steps[i].found == (steps[i].slug in pages)
    ensures PageRule(p)(Get(was, steps[i].slug), xs[i]).Some?
    ensures PageMakes(p, steps[i], Get(was, steps[i].slug), PageRule(p)(Get(was, steps[i].slug), xs[i]).value)
    ensures steps[i].monitors.Some? ==> forall m :: m in steps[i].monitors.value ==> m.monitor in monitors
  {
    assert PagePlanned(p, was, pages, xs[i], steps[i]);
  }

  lemma SlugsDiffer(p: Platform, was: map<string, PageView>, pages: map<string, S.PageRow>, xs: seq<PageEntry>, steps: seq<PageStep>, i: nat, monitors: set<Key>)
    requires PagesPlanned(p, was, pages, xs, steps) && PageRefsIn(steps, monitors) && Distinct(PageKey(p), xs) && i < |xs| == |steps|
    ensures forall j :: i < j < |steps| ==> steps[j].slug != steps[i].slug
  {
    hide NextPage, PageMakes, PageSpares, PagesPlanned, PageRefsIn, SlugOf;
    StepAt(p, was, pages, xs, steps, i, monitors);
    forall j | i < j < |steps| ensures steps[j].slug != steps[i].slug {
      StepAt(p, was, pages, xs, steps, j, monitors);
      assert PageKey(p)(xs[i]) != PageKey(p)(xs[j]);
    }
  }

  /** One turn of the loop: the page of entry i is written, unless it is as the file describes it. */
  method ApplyPageAt(store: Store, p: Platform, st: PageStep, ghost v: View, ghost xs: seq<PageEntry>, ghost i: nat) returns (ok: bool)
    requires S.Valid(store.db) && i < |xs| && S.Seen(store.db) == PagesDone(p, v, xs, i)
    requires Distinct(PageKey(p), xs) && Accepted(PageRule(p), PageKey(p), v.pages, xs)
    requires st.slug == PageKey(p)(xs[i]) && st.found == (st.slug in store.db.pages) && PageRule(p)(Get(v.pages, st.slug), xs[i]).Some?
    requires PageMakes(p, st, Get(v.pages, st.slug), PageRule(p)(Get(v.pages, st.slug), xs[i]).value)
    requires st.monitors.Some? ==> forall m :: m in st.monitors.value ==> m.monitor in store.db.monitorKeys.idOf
    modifies store
    ensures S.Valid(store.db) && store.db == old(store.db).(pages := store.db.pages)
    ensures OnlyKey(store.db.pages, old(store.db).pages, st.slug)
    ensures ok ==> S.Seen(store.db) == PagesDone(p, v, xs, i + 1)
    ensures !ok ==> PagesStopped(p, v, S.Seen(store.db), xs)
  {
    hide S.Seen, S.Valid, NextPage, PageMakes, PageStopped, PagesStopped, Accepted, SlugOf, Distinct;
    ghost var e, t := Get(v.pages, st.slug), PageRule(p)(Get(v.pages, st.slug), xs[i]).value;
    PageAdvances(p, v, xs, i, st.slug);
    ok := true;
    if st.write || st.monitors.Some? {
      ok := ApplyPage(store, p, st, e, t);
      if !ok { PageStops(p, v, xs, i, st.slug, S.Seen(store.db)); }
    } else {
      NothingToWrite(p, st, e, t, PagesDone(p, v, xs, i).pages);
    }
  }

  method ApplyPages(store: Store, p: Platform, steps: seq<PageStep>, ghost v: View, ghost xs: seq<PageEntry>) returns (ok: bool)
    requires S.Valid(store.db) && S.Seen(store.db) == v && PagesPlanned(p, v.pages, store.db.pages, xs, steps)
    requires Distinct(PageKey(p), xs) && Accepted(PageRule(p), PageKey(p), v.pages, xs)
    requires PageRefsIn(steps, store.db.monitorKeys.idOf.Keys)
    modifies store
    ensures S.Valid(store.db)
    ensures ok ==> S.Seen(store.db) == PagesDone(p, v, xs, |xs|)
    ensures !ok ==> PagesStopped(p, v, S.Seen(store.db), xs)
  {
    hide S.Seen, S.Valid, NextPage, PageMakes, PageStopped, PagesStopped, Accepted, SlugOf, PagesPlanned, PageRefsIn, Distinct;
    StepCount(p, v.pages, store.db.pages, xs, steps);
    var i := 0;
    while i < |steps|
      invariant 0 <= i <= |steps| && S.Valid(store.db) && store.db == old(store.db).(pages := store.db.pages)
      invariant S.Seen(store.db) == PagesDone(p, v, xs, i)
      invariant forall j :: i <= j < |steps| ==> Get(store.db.pages, steps[j].slug) == Get(old(store.db).pages, steps[j].slug)
    {
      StepAt(p, v.pages, old(store.db).pages, xs, steps, i, store.db.monitorKeys.idOf.Keys);
      assert Get(store.db.pages, steps[i].slug) == Get(old(store.db).pages, steps[i].slug);
      ok := ApplyPageAt(store, p, steps[i], v, xs, i);
      if !ok { return; }
      SlugsDiffer(p, v.pages, old(store.db).pages, xs, steps, i, store.db.monitorKeys.idOf.Keys);
      i := i + 1;
    }
    ok := true;
  }
}
