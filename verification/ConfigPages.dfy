/** Status pages in an import (internal/api/config_status_pages.go; NormaliseStatusPage and
    NormaliseStatusPageDisplayName, internal/store/status_pages.go). */
module ConfigPages {
  import opened Prelude
  import opened ConfigModel
  import opened ConfigRules

  const MaxEntries := 200

  predicate DescriptionControl(s: string) {
    exists i :: 0 <= i < |s| && IsControl(s[i]) && s[i] != '\n' && s[i] != '\r' && s[i] != '\t'
  }

  function Or(s: string, default: string): string { if s == "" then default else s }

  /** The text of a page in the form it is stored. */
  function Trimmed(p: Platform, a: Page): Page {
    var t := TagPairOf(p, a.tagKey, a.tagValue);
    a.(title := TrimSpace(a.title), description := TrimSpace(a.description), timezone := Or(TrimSpace(a.timezone), "UTC"),
       language := Or(p.lower(TrimSpace(a.language)), "en"), accent := p.lower(TrimSpace(a.accent)),
       tagKey := if a.selection == ByTag then t.key else a.tagKey, tagValue := if a.selection == ByTag then t.value else a.tagValue)
  }

  predicate SelectionOk(p: Platform, t: Page, saved: Option<Page>) {
    match t.selection
    case ByMonitor => t.tagKey == "" && t.tagValue == ""
    case ByTag => TagOk(p, TagPair(t.tagKey, t.tagValue),
                        saved.Some? && saved.value.selection == ByTag && saved.value.tagKey == t.tagKey && saved.value.tagValue == t.tagValue)
    case OtherSelection(_) => false
  }

  predicate TextOk(p: Platform, t: Page, saved: Option<Page>) {
    && 1 <= |t.title| <= 120 && (HasControlCharacter(t.title) ==> saved.Some? && saved.value.title == t.title)
    && |t.description| <= 500 && (DescriptionControl(t.description) ==> saved.Some? && saved.value.description == t.description)
    && t.timezone != "Local" && p.zoneOk(t.timezone) && p.languageOk(t.language) && (t.accent == "" || p.accentOk(t.accent))
  }

  /** normaliseStatusPage: a new page, or an edit of a saved one, whose text is kept as it was saved. */
  function NormalPage(p: Platform, a: Page, saved: Option<Page>): Option<Page> {
    var t := Trimmed(p, a);
    if TextOk(p, t, saved) && SelectionOk(p, t, saved) then Some(t) else None
  }

  function BlankPage(): Page { Page("", "", "", "", "", false, false, false, ByMonitor, "", "") }

  /** The page with what the file gives, before it is normalised. */
  function Overlay(was: Option<Page>, x: PageEntry): Page {
    var b := was.GetOr(BlankPage());
    Page(if TrimSpace(x.title) != "" || was.None? then x.title else b.title,
         x.description.GetOr(b.description), x.timezone.GetOr(b.timezone), x.language.GetOr(b.language),
         x.accent.GetOr(b.accent), x.hideCredit.GetOr(b.hideCredit), x.indexable.GetOr(b.indexable), x.enabled.GetOr(b.enabled),
         x.selection.GetOr(b.selection),
         if x.selection.Some? then x.tagKey else b.tagKey, if x.selection.Some? then x.tagValue else b.tagValue)
  }

  // ---------------------------------------------------------------------------- entries

  function EntriesOf(list: seq<PageMonitor>): seq<Entry> {
    seq(|list|, i requires 0 <= i < |list| => Entry(Keyed(list[i].monitor), TrimSpace(list[i].name)))
  }

  predicate DisplayNameOk(name: string, kept: bool) {
    1 <= |name| <= 80 && (HasControlCharacter(name) ==> kept)
  }

  /** checkPageMonitors, but for the keys being known. */
  predicate EntriesOk(list: seq<PageMonitor>, stored: seq<Entry>) {
    && |list| <= MaxEntries
    && (forall i, j :: 0 <= i < j < |list| ==> list[i].monitor != list[j].monitor)
    && (forall i :: 0 <= i < |list| ==>
          DisplayNameOk(TrimSpace(list[i].name), EntriesOf(list)[i] in stored))
  }

  // ------------------------------------------------------------------- the section's rule

  function SlugOf(p: Platform, x: PageEntry): string { p.lower(TrimSpace(x.slug)) }

  predicate SlugOk(p: Platform, slug: string) { p.slugOk(slug) && slug !in {"api", "assets", "fonts", "logos"} }

  function PageOf(v: Option<PageView>): Option<Page> { if v.Some? then Some(v.value.page) else None }
  function EntriesIn(v: Option<PageView>): seq<Entry> { if v.Some? then v.value.entries else [] }

  function NextPage(p: Platform, v: Option<PageView>, x: PageEntry): Option<PageView> {
    if !SlugOk(p, SlugOf(p, x)) then None
    else if x.selection.None? && (x.tagKey != "" || x.tagValue != "") then None
    else if x.monitors.Some? && !EntriesOk(x.monitors.value, EntriesIn(v)) then None
    else match NormalPage(p, Overlay(PageOf(v), x), PageOf(v))
      case None => None
      case Some(t) => Some(PageView(t, if x.monitors.Some? then EntriesOf(x.monitors.value) else EntriesIn(v)))
  }

  function Draft(a: Page): Page { a.(enabled := false) }

  /** Where writing a page can stop: a new page is a draft until its entries are in, a page that ends
      switched on is written after its entries, and one that ends switched off before them. */
  predicate PageHalf(v: Option<PageView>, s: Option<PageView>, t: PageView) {
    || s == v || s == Some(t)
    || (v.None? && (s == Some(PageView(Draft(t.page), [])) || s == Some(PageView(Draft(t.page), t.entries))))
    || (v.Some? && s == Some(if t.page.enabled then PageView(v.value.page, t.entries) else PageView(t.page, v.value.entries)))
  }

  /** What a visitor is shown: the entries of a page that is switched on. */
  function Shown(s: Option<PageView>): Option<seq<Entry>> {
    if s.Some? && s.value.page.enabled then Some(s.value.entries) else None
  }

  /** A page an import creates or switches on is never shown before its entries are final, one it
      switches off never shows the new entries, and a page shown throughout shows its old entries or its
      new ones. */
  lemma NeverShownHalfBuilt(v: Option<PageView>, s: Option<PageView>, t: PageView)
    requires PageHalf(v, s, t)
    ensures Shown(v).None? && Shown(s).Some? ==> Shown(s) == Shown(Some(t))
    ensures Shown(Some(t)).None? && Shown(s).Some? ==> Shown(s) == Shown(v)
    ensures Shown(s).Some? ==> Shown(s) == Shown(v) || Shown(s) == Shown(Some(t))
  {
  }

  // ---------------------------------------------------------------------- run it again

  /** b has a value of a or of t, its stored form, in every field. */
  ghost predicate Blend(b: Page, a: Page, t: Page) {
    && (b.title == a.title || b.title == t.title) && (b.description == a.description || b.description == t.description)
    && (b.timezone == a.timezone || b.timezone == t.timezone) && (b.language == a.language || b.language == t.language)
    && (b.accent == a.accent || b.accent == t.accent)
    && b.hideCredit == t.hideCredit && b.indexable == t.indexable && b.enabled == t.enabled && b.selection == t.selection
    && ((b.tagKey == a.tagKey && b.tagValue == a.tagValue) || (b.tagKey == t.tagKey && b.tagValue == t.tagValue))
  }

  lemma TextTwice(p: Platform, s: string)
    requires Dependable(p)
    ensures TrimSpace(TrimSpace(s)) == TrimSpace(s)
    ensures p.lower(TrimSpace(p.lower(TrimSpace(s)))) == p.lower(TrimSpace(s))
    ensures Or(TrimSpace(Or(TrimSpace(s), "UTC")), "UTC") == Or(TrimSpace(s), "UTC")
    ensures Or(p.lower(TrimSpace(Or(p.lower(TrimSpace(s)), "en"))), "en") == Or(p.lower(TrimSpace(s)), "en")
  {
    assert TrimSpaceFixed(TrimSpace(s)) && TrimSpaceFixed(p.lower(TrimSpace(s)));
    assert TrimSpaceFixed("UTC") && TrimSpaceFixed("en");
  }

  lemma TrimmedTwice(p: Platform, a: Page, b: Page)
    requires Dependable(p) && Blend(b, a, Trimmed(p, a))
    ensures Trimmed(p, b) == Trimmed(p, a)
  {
    TextTwice(p, a.title);
    TextTwice(p, a.description);
    TextTwice(p, a.timezone);
    TextTwice(p, a.language);
    TextTwice(p, a.accent);
    if a.selection == ByTag { TagPairTwice(p, a.tagKey, a.tagValue); }
  }

  lemma NormalTwice(p: Platform, a: Page, saved: Option<Page>, t: Page, b: Page, now: Page)
    requires Dependable(p) && NormalPage(p, a, saved) == Some(t) && Blend(b, a, t) && now == t.(enabled := now.enabled)
    ensures NormalPage(p, b, Some(now)) == Some(t)
  {
    TrimmedTwice(p, a, b);
  }

  lemma OverlayBlends(p: Platform, v: Option<PageView>, x: PageEntry, t: Page, now: Page)
    requires NormalPage(p, Overlay(PageOf(v), x), PageOf(v)) == Some(t)
    requires now == t || (v.None? && now == Draft(t))
    ensures Blend(Overlay(Some(now), x), Overlay(PageOf(v), x), t)
  {
  }

  lemma EntriesTwice(list: seq<PageMonitor>, stored: seq<Entry>, now: seq<Entry>)
    requires EntriesOk(list, stored) && (now == stored || now == EntriesOf(list) || stored == [])
    ensures EntriesOk(list, now)
  {
    var es := EntriesOf(list);
    forall i | 0 <= i < |list| ensures DisplayNameOk(TrimSpace(list[i].name), es[i] in now) {
      assert es[i] in es;
    }
  }

  /** Judged again on anything its own writing can have left, an entry makes the same page. */
  lemma PageStable(p: Platform, v: Option<PageView>, s: Option<PageView>, x: PageEntry, t: PageView)
    requires Dependable(p) && NextPage(p, v, x) == Some(t) && PageHalf(v, s, t)
    ensures NextPage(p, s, x) == Some(t)
  {
    if s != v {
      if x.monitors.Some? { EntriesTwice(x.monitors.value, EntriesIn(v), EntriesIn(s)); }
      if s.value.page != PageOf(v).GetOr(BlankPage()) || v.None? {
        OverlayBlends(p, v, x, t.page, s.value.page);
        NormalTwice(p, Overlay(PageOf(v), x), PageOf(v), t.page, Overlay(Some(s.value.page), x), s.value.page);
      }
    }
  }
}
