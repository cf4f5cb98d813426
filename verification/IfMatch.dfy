/** The If-Match header: a parser proved against the lists it accepts, and the versions a tag can denote. */
module IfMatch {
  import opened Prelude
  import opened Decimal

  predicate IsBlank(c: char) { c == ' ' || c == '\t' }

  predicate Blank(s: string) { forall i :: 0 <= i < |s| ==> IsBlank(s[i]) }

  function SkipBlank(s: string): (t: string)
    ensures |t| <= |s| && (|t| == 0 || !IsBlank(t[0]))
  {
    if |s| == 0 || !IsBlank(s[0]) then s else SkipBlank(s[1..])
  }

  function DropBlank(s: string): (t: string)
    ensures |t| <= |s| && (|t| == 0 || !IsBlank(t[|t| - 1]))
  {
    if |s| == 0 || !IsBlank(s[|s| - 1]) then s else DropBlank(s[..|s| - 1])
  }

  /** Where the first quote is, or the length. */
  function Quote(s: string): (k: nat)
    ensures k <= |s| && (forall i :: 0 <= i < k ==> s[i] != '"') && (k < |s| ==> s[k] == '"')
  {
    if |s| == 0 || s[0] == '"' then 0 else 1 + Quote(s[1..])
  }

  // The parser.

  function StripWeak(s: string): (t: string)
    ensures |t| <= |s|
  {
    if |s| >= 2 && s[0] == 'W' && s[1] == '/' then s[2..] else s
  }

  /** What one round of the parser finds: a tag, and what follows it without blanks. */
  datatype Found = Nothing | Found(tag: string, rest: string)

  function Quoted(q: string): (f: Found)
    ensures f.Found? ==> |f.rest| < |q|
  {
    if |q| == 0 || q[0] != '"' then Nothing else
      var body := q[1..];
      var end := Quote(body);
      if end == |body| then Nothing else Found(body[..end], SkipBlank(body[end + 1..]))
  }

  function Next(s: string): (f: Found)
    ensures f.Found? ==> |f.rest| < |s|
  {
    Quoted(StripWeak(SkipBlank(s)))
  }

  function ParseList(s: string): Option<seq<string>>
    decreases |s|
  {
    var f := Next(s);
    if f.Nothing? then None
    else if |f.rest| == 0 then Some([f.tag])
    else if f.rest[0] != ',' then None
    else Onto(f.tag, ParseList(f.rest[1..]))
  }

  function Onto(tag: string, more: Option<seq<string>>): Option<seq<string>> {
    match more
    case None => None
    case Some(tags) => Some([tag] + tags)
  }

  predicate IsStar(s: string) { |s| == 1 && s[0] == '*' }

  datatype Parsed = Invalid | Star | List(tags: seq<string>)

  function Parse(value: string): Parsed {
    var rest := DropBlank(SkipBlank(value));
    if |rest| == 0 then Invalid
    else if IsStar(rest) then Star
    else
      var list := ParseList(rest);
      if list.None? then Invalid else List(list.value)
  }

  /** The tags found so far and those still to come. */
  function Together(found: seq<string>, more: Option<seq<string>>): Option<seq<string>> {
    match more
    case None => None
    case Some(tags) => Some(found + tags)
  }

  lemma OneMore(found: seq<string>, tag: string, more: Option<seq<string>>)
    ensures Together(found, Onto(tag, more)) == Together(found + [tag], more)
    ensures Together(found, Some([tag])) == Some(found + [tag])
    ensures Together([], more) == more
  {
    if more.Some? {
      assert found + ([tag] + more.value) == (found + [tag]) + more.value;
      assert [] + more.value == more.value;
    }
  }

  method ParseIfMatch(value: string) returns (tags: seq<string>, star: bool, ok: bool)
    ensures ok <==> !Parse(value).Invalid?
    ensures star <==> Parse(value).Star?
    ensures tags == if Parse(value).List? then Parse(value).tags else []
  {
    hide Next, Together, Onto, SkipBlank, DropBlank;
    tags, star, ok := [], false, false;
    var rest := DropBlank(SkipBlank(value));
    if |rest| == 0 { return; }
    if IsStar(rest) { return [], true, true; }
    var found: seq<string> := [];
    ghost var whole := ParseList(rest);
    OneMore([], "", whole);
    while true
      invariant whole == Together(found, ParseList(rest))
      invariant !Parse(value).Star? && (Parse(value) == if whole.None? then Invalid else List(whole.value))
      decreases |rest|
    {
      var f := Next(rest);
      if f.Nothing? {
        NoneTogether(found);
        return;
      }
      OneMore(found, f.tag, if |f.rest| > 0 then ParseList(f.rest[1..]) else None);
      found := found + [f.tag];
      rest := f.rest;
      if |rest| == 0 { return found, false, true; }
      if rest[0] != ',' {
        NoneTogether(found[..|found| - 1]);
        return;
      }
      rest := rest[1..];
    }
  }

  lemma NoneTogether(found: seq<string>)
    ensures Together(found, None) == None
  {
  }

  // What a list of tags looks like.

  /** One tag with the blanks around it and its optional weakness prefix. */
  datatype Item = Item(lead: string, weak: bool, tag: string, trail: string) {
    predicate Well() { Blank(lead) && Blank(trail) && '"' !in tag }
  }

  predicate WellAll(items: seq<Item>) { forall i :: 0 <= i < |items| ==> items[i].Well() }

  /** The tag in its quotes, and what follows. */
  function Enclosed(tag: string, after: string): string { ['"'] + (tag + (['"'] + after)) }

  function Weakly(weak: bool, s: string): string { if weak then ['W', '/'] + s else s }

  /** The item with s after it, but without the blanks before it. */
  function Core(item: Item, s: string): string { Weakly(item.weak, Enclosed(item.tag, item.trail + s)) }

  /** The items with a comma between each two. */
  function Render(items: seq<Item>): string {
    if |items| == 0 then []
    else items[0].lead + Core(items[0], if |items| == 1 then [] else [','] + Render(items[1..]))
  }

  function Tags(items: seq<Item>): seq<string> {
    if |items| == 0 then [] else [items[0].tag] + Tags(items[1..])
  }

  // The parser accepts every rendering, and gives its tags.

  lemma {:induction false} SkipBlankOf(lead: string, s: string)
    requires Blank(lead) && (|s| == 0 || !IsBlank(s[0]))
    ensures SkipBlank(lead + s) == s
  {
    if |lead| == 0 {
      assert lead + s == s;
    } else {
      assert (lead + s)[1..] == lead[1..] + s;
      SkipBlankOf(lead[1..], s);
    }
  }

  lemma QuoteOf(tag: string, s: string)
    requires '"' !in tag && |s| > 0 && s[0] == '"'
    ensures Quote(tag + s) == |tag|
  {
    hide Quote;
    var t := tag + s;
    assert t[|tag|] == '"';
    assert forall i :: 0 <= i < |tag| ==> t[i] == tag[i] && tag[i] in tag;
  }

  lemma QuotedOf(tag: string, trail: string, s: string)
    requires '"' !in tag && Blank(trail) && (|s| == 0 || !IsBlank(s[0]))
    ensures Quoted(Enclosed(tag, trail + s)) == Found(tag, s)
  {
    hide Quote, SkipBlank, Blank;
    var q, tail := Enclosed(tag, trail + s), ['"'] + (trail + s);
    assert q[1..] == tag + tail;
    QuoteOf(tag, tail);
    assert (tag + tail)[..|tag|] == tag;
    assert (tag + tail)[|tag| + 1..] == trail + s;
    SkipBlankOf(trail, s);
  }

  lemma StripWeakOf(weak: bool, q: string)
    requires |q| > 0 && q[0] != 'W'
    ensures StripWeak(Weakly(weak, q)) == q
  {
    if weak { assert (['W', '/'] + q)[2..] == q; }
  }

  lemma CoreHead(item: Item, s: string)
    ensures |Core(item, s)| > 0 && !IsBlank(Core(item, s)[0]) && Core(item, s)[0] != '*'
  {
  }

  lemma NextOfItem(item: Item, s: string)
    requires item.Well() && (|s| == 0 || s[0] == ',')
    ensures Next(item.lead + Core(item, s)) == Found(item.tag, s)
  {
    hide SkipBlank, StripWeak, Quoted, Blank;
    CoreHead(item, s);
    SkipBlankOf(item.lead, Core(item, s));
    StripWeakOf(item.weak, Enclosed(item.tag, item.trail + s));
    QuotedOf(item.tag, item.trail, s);
  }

  lemma {:induction false} ListOfRendering(items: seq<Item>)
    requires |items| > 0 && WellAll(items)
    ensures ParseList(Render(items)) == Some(Tags(items))
  {
    hide Next, Core;
    if |items| == 1 {
      NextOfItem(items[0], []);
      assert Tags(items) == [items[0].tag] + [] == [items[0].tag];
    } else {
      var s := Render(items[1..]);
      NextOfItem(items[0], [','] + s);
      ListOfRendering(items[1..]);
      assert ([','] + s)[1..] == s;
    }
  }

  /** Blanks before the first item. */
  function Leading(lead: string, items: seq<Item>): seq<Item>
    requires |items| > 0
  {
    [items[0].(lead := lead)] + items[1..]
  }

  lemma RenderLeading(lead: string, items: seq<Item>)
    requires |items| > 0
    ensures Render(Leading(lead, items))
         == lead + Core(items[0], if |items| == 1 then [] else [','] + Render(items[1..]))
    ensures Tags(Leading(lead, items)) == Tags(items)
  {
    var t := Leading(lead, items);
    assert t[1..] == items[1..];
    assert Core(t[0], if |items| == 1 then [] else [','] + Render(items[1..]))
        == Core(items[0], if |items| == 1 then [] else [','] + Render(items[1..]));
  }

  /** Blanks after the last item. */
  function Trailing(items: seq<Item>, trail: string): seq<Item>
    requires |items| > 0
  {
    if |items| == 1 then [items[0].(trail := trail)] else [items[0]] + Trailing(items[1..], trail)
  }

  lemma EnclosedThen(tag: string, after: string, s: string)
    ensures Enclosed(tag, after) + s == Enclosed(tag, after + s)
  {
    assert (tag + (['"'] + after)) + s == tag + (['"'] + (after + s));
  }

  lemma WeaklyThen(weak: bool, q: string, s: string)
    ensures Weakly(weak, q) + s == Weakly(weak, q + s)
  {
  }

  lemma CoreThen(item: Item, after: string, s: string)
    ensures Core(item, after) + s == Core(item, after + s)
  {
    hide Enclosed, Weakly;
    WeaklyThen(item.weak, Enclosed(item.tag, item.trail + after), s);
    EnclosedThen(item.tag, item.trail + after, s);
    assert (item.trail + after) + s == item.trail + (after + s);
  }

  lemma CoreOfTrail(item: Item, trail: string)
    ensures Core(item.(trail := []), trail) == Core(item.(trail := trail), [])
  {
    assert [] + trail == trail + [];
  }

  lemma {:induction false} RenderTrailing(items: seq<Item>, trail: string)
    requires |items| > 0
    ensures |Trailing(items, trail)| == |items| && Tags(Trailing(items, trail)) == Tags(items)
    ensures Render(Trailing(items, [])) + trail == Render(Trailing(items, trail))
  {
    hide Core;
    var a, b := Trailing(items, []), Trailing(items, trail);
    if |items| == 1 {
      CoreThen(items[0].(trail := []), [], trail);
      assert [] + trail == trail;
      CoreOfTrail(items[0], trail);
      Concat(items[0].lead, Core(a[0], []), trail);
    } else {
      RenderTrailing(items[1..], trail);
      TrailingRest(items, []);
      TrailingRest(items, trail);
      var s := [','] + Render(a[1..]);
      CoreThen(items[0], s, trail);
      Concat([','], Render(a[1..]), trail);
      Concat(items[0].lead, Core(items[0], s), trail);
    }
  }

  lemma TrailingRest(items: seq<Item>, trail: string)
    requires |items| > 1
    ensures var t := Trailing(items, trail); |t| > 1 && t[0] == items[0] && t[1..] == Trailing(items[1..], trail)
  {
    TrailingLength(items[1..], trail);
  }

  lemma {:induction false} TrailingLength(items: seq<Item>, trail: string)
    requires |items| > 0
    ensures |Trailing(items, trail)| == |items|
  {
    if |items| > 1 { TrailingLength(items[1..], trail); }
  }

  lemma Concat(a: string, b: string, c: string)
    ensures (a + b) + c == a + (b + c)
  {
  }

  lemma {:induction false} TrailingOwn(items: seq<Item>)
    requires |items| > 0
    ensures Trailing(items, items[|items| - 1].trail) == items
  {
    if |items| == 1 {
      assert items == [items[0]];
    } else {
      TrailingOwn(items[1..]);
      assert items == [items[0]] + items[1..];
    }
  }

  lemma {:induction false} TrailingWell(items: seq<Item>, trail: string)
    requires |items| > 0 && WellAll(items) && Blank(trail)
    ensures WellAll(Trailing(items, trail))
  {
    if |items| > 1 { TrailingWell(items[1..], trail); }
  }

  lemma CoreEnds(item: Item)
    requires |item.trail| == 0
    ensures var c := Core(item, []); |c| > 0 && c[|c| - 1] == '"'
  {
  }

  lemma {:induction false} RenderEnds(items: seq<Item>)
    requires |items| > 0 && |items[|items| - 1].trail| == 0
    ensures var s := Render(items); |s| > 0 && s[|s| - 1] == '"'
  {
    if |items| == 1 {
      hide Core;
      CoreEnds(items[0]);
    } else {
      RenderEnds(items[1..]);
      CoreThen(items[0], [], [','] + Render(items[1..]));
      assert [] + ([','] + Render(items[1..])) == [','] + Render(items[1..]);
    }
  }

  lemma {:induction false} TrailingLast(items: seq<Item>, trail: string)
    requires |items| > 0
    ensures |Trailing(items, trail)| == |items| && Trailing(items, trail)[|items| - 1].trail == trail
  {
    if |items| > 1 { TrailingLast(items[1..], trail); }
  }

  lemma {:induction false} DropBlankOf(s: string, trail: string)
    requires Blank(trail) && |s| > 0 && !IsBlank(s[|s| - 1])
    ensures DropBlank(s + trail) == s
  {
    var all := s + trail;
    if |trail| == 0 {
      assert all == s;
    } else {
      assert all[..|all| - 1] == s + trail[..|trail| - 1];
      DropBlankOf(s, trail[..|trail| - 1]);
    }
  }

  lemma LeadTrimmed(items: seq<Item>)
    requires |items| > 0 && WellAll(items)
    ensures var a := Leading([], items);
      WellAll(a) && Tags(a) == Tags(items) && SkipBlank(Render(items)) == Render(a) && |Render(a)| > 0 && Render(a)[0] != '*'
  {
    hide Core, Blank, Tags, SkipBlank;
    var after := if |items| == 1 then [] else [','] + Render(items[1..]);
    RenderLeading([], items);
    CoreHead(items[0], after);
    SkipBlankOf(items[0].lead, Core(items[0], after));
    assert [] + Core(items[0], after) == Core(items[0], after);
    NoBlanks();
  }

  lemma TrailTrimmed(a: seq<Item>) returns (tight: seq<Item>)
    requires |a| > 0 && WellAll(a)
    ensures |tight| > 0 && WellAll(tight) && Tags(tight) == Tags(a) && DropBlank(Render(a)) == Render(tight)
    ensures |Render(tight)| > 0 && |Render(a)| >= |Render(tight)| && Render(a)[0] == Render(tight)[0]
  {
    hide Core, Blank, Tags, Render, DropBlank;
    var trail := a[|a| - 1].trail;
    tight := Trailing(a, []);
    NoBlanks();
    TrailingWell(a, []);
    TrailingOwn(a);
    RenderTrailing(a, []);
    RenderTrailing(a, trail);
    TrailingLast(a, []);
    RenderEnds(tight);
    DropBlankOf(Render(tight), trail);
  }

  /** Cutting the blanks off both ends of a rendering leaves the rendering of the same tags. */
  lemma TrimmedRendering(items: seq<Item>) returns (tight: seq<Item>)
    requires |items| > 0 && WellAll(items)
    ensures |tight| > 0 && WellAll(tight) && Tags(tight) == Tags(items) && DropBlank(SkipBlank(Render(items))) == Render(tight)
    ensures |Render(tight)| > 0 && !IsStar(Render(tight))
  {
    hide Core, WellAll, Tags, Render, DropBlank, SkipBlank;
    LeadTrimmed(items);
    tight := TrailTrimmed(Leading([], items));
  }

  lemma NoBlanks()
    ensures Blank([])
  {
  }

  /** Every rendering of a list of tags is accepted, with exactly those tags in order. */
  lemma RenderingParses(items: seq<Item>)
    requires |items| > 0 && WellAll(items)
    ensures Parse(Render(items)) == List(Tags(items))
  {
    hide Render, Tags, WellAll, ParseList;
    var tight := TrimmedRendering(items);
    ListOfRendering(tight);
  }

  // It accepts nothing else.

  lemma {:induction false} SkipBlankSplit(s: string) returns (lead: string)
    ensures Blank(lead) && s == lead + SkipBlank(s)
  {
    if |s| == 0 || !IsBlank(s[0]) {
      lead := [];
    } else {
      var more := SkipBlankSplit(s[1..]);
      lead := [s[0]] + more;
    }
  }

  lemma {:induction false} DropBlankSplit(s: string) returns (trail: string)
    ensures Blank(trail) && s == DropBlank(s) + trail
  {
    if |s| == 0 || !IsBlank(s[|s| - 1]) {
      trail := [];
    } else {
      var more := DropBlankSplit(s[..|s| - 1]);
      trail := more + [s[|s| - 1]];
    }
  }

  lemma StripWeakSplit(t: string) returns (weak: bool)
    ensures t == Weakly(weak, StripWeak(t))
  {
    weak := |t| >= 2 && t[0] == 'W' && t[1] == '/';
  }

  lemma QuotedSplit(q: string) returns (trail: string)
    requires Quoted(q).Found?
    ensures Blank(trail) && '"' !in Quoted(q).tag && q == Enclosed(Quoted(q).tag, trail + Quoted(q).rest)
  {
    hide SkipBlank, Blank;
    var body := q[1..];
    var end := Quote(body);
    trail := SkipBlankSplit(body[end + 1..]);
    assert body == body[..end] + (['"'] + body[end + 1..]);
    assert q == ['"'] + body;
  }

  lemma ItemOf(s: string) returns (item: Item)
    requires Next(s).Found?
    ensures item.Well() && item.tag == Next(s).tag && s == item.lead + Core(item, Next(s).rest)
  {
    hide SkipBlank, StripWeak, Quoted, Enclosed, Weakly, Blank;
    var lead := SkipBlankSplit(s);
    var weak := StripWeakSplit(SkipBlank(s));
    var trail := QuotedSplit(StripWeak(SkipBlank(s)));
    item := Item(lead, weak, Next(s).tag, trail);
  }

  /** The items a list was read from. */
  lemma {:induction false} RenderingOfList(s: string) returns (items: seq<Item>)
    requires ParseList(s).Some?
    ensures |items| > 0 && WellAll(items) && Render(items) == s && Some(Tags(items)) == ParseList(s)
    decreases |s|
  {
    hide Next, Core;
    var item := ItemOf(s);
    var rest := Next(s).rest;
    if |rest| == 0 {
      items := [item];
      assert rest == [];
      assert Tags(items) == [item.tag] + [] == [item.tag];
    } else {
      var more := RenderingOfList(rest[1..]);
      items := [item] + more;
      assert items[1..] == more;
      assert rest == [','] + rest[1..];
    }
  }

  lemma BlankBoth(a: string, b: string)
    requires Blank(a) && Blank(b)
    ensures Blank(a + b)
  {
  }

  /** The items with more blanks around the whole. */
  lemma Loosened(tight: seq<Item>, lead: string, trail: string) returns (items: seq<Item>)
    requires |tight| > 0 && WellAll(tight) && Blank(lead) && Blank(trail)
    ensures |items| > 0 && WellAll(items) && Tags(items) == Tags(tight) && Render(items) == lead + (Render(tight) + trail)
  {
    hide Core, Blank;
    var own := tight[|tight| - 1].trail;
    BlankBoth(own, trail);
    TrailingOwn(tight);
    RenderTrailing(tight, own);
    RenderTrailing(tight, own + trail);
    Concat(Render(Trailing(tight, [])), own, trail);
    var u := Trailing(tight, own + trail);
    TrailingWell(tight, own + trail);
    BlankBoth(lead, u[0].lead);
    RenderLeading(lead + u[0].lead, u);
    Concat(lead, u[0].lead, Core(u[0], if |u| == 1 then [] else [','] + Render(u[1..])));
    items := Leading(lead + u[0].lead, u);
  }

  /** Whatever is accepted as a list is a rendering of it. */
  lemma ParsedIsRendering(value: string) returns (items: seq<Item>)
    requires Parse(value).List?
    ensures |items| > 0 && WellAll(items) && Render(items) == value && Tags(items) == Parse(value).tags
  {
    hide Render, Tags, ParseList, WellAll, Blank;
    var lead := SkipBlankSplit(value);
    var trail := DropBlankSplit(SkipBlank(value));
    var tight := RenderingOfList(DropBlank(SkipBlank(value)));
    items := Loosened(tight, lead, trail);
  }

  /** The items are well formed, and value is their rendering, with these tags. */
  ghost predicate Renders(items: seq<Item>, value: string, tags: seq<string>) {
    |items| > 0 && WellAll(items) && Render(items) == value && Tags(items) == tags
  }

  /** The lists the parser accepts are the renderings of non-empty lists of tags without quotes, and no others. */
  lemma AcceptsExactlyRenderings(value: string, tags: seq<string>)
    ensures Parse(value) == List(tags) <==> exists items :: Renders(items, value, tags)
  {
    hide Parse, Render, Tags, WellAll;
    if Parse(value) == List(tags) {
      var items := ParsedIsRendering(value);
      assert Renders(items, value, tags);
    }
    if items :| Renders(items, value, tags) {
      RenderingParses(items);
    }
  }

  // The versions.

  const INT64_MIN := -0x8000_0000_0000_0000
  const INT64_MAX := 0x7FFF_FFFF_FFFF_FFFF

  /** A monitor's version: the second it was last updated. */
  datatype Version = Version(stamp: int) {
    predicate Fits() { INT64_MIN <= stamp <= INT64_MAX }
  }

  function FormatInt(n: int): string { if n < 0 then ['-'] + Format(-n) else Format(n) }

  /** A 64-bit number in decimal, with an optional sign and any leading zeroes. */
  function ParseInt(s: string): (v: Option<Version>)
    ensures v.Some? ==> v.value.Fits()
  {
    var signed := |s| > 0 && (s[0] == '+' || s[0] == '-');
    var digits := if signed then s[1..] else s;
    if |digits| == 0 || !Digits(digits) then None else
      var n: int := if signed && s[0] == '-' then 0 - Value(digits) else Value(digits);
      if INT64_MIN <= n <= INT64_MAX then Some(Version(n)) else None
  }

  /** The version a tag denotes, when it is spelled as this API spells one. */
  function VersionOf(tag: string): Option<Version> {
    var v := ParseInt(tag);
    if v.Some? && FormatInt(v.value.stamp) == tag then v else None
  }

  function Versions(tags: seq<string>): seq<Version> {
    if |tags| == 0 then [] else
      Versions(tags[..|tags| - 1]) + match VersionOf(tags[|tags| - 1]) case Some(v) => [v] case None => []
  }

  method IfMatchVersions(tags: seq<string>) returns (versions: seq<Version>)
    ensures versions == Versions(tags)
  {
    versions := [];
    for i := 0 to |tags|
      invariant versions == Versions(tags[..i])
    {
      assert tags[..i + 1][..i] == tags[..i];
      var stamp := ParseInt(tags[i]);
      if stamp.None? { continue; }
      if FormatInt(stamp.value.stamp) != tags[i] { continue; }
      versions := versions + [stamp.value];
    }
    assert tags[..|tags|] == tags;
  }

  lemma ParseOfFormat(v: Version)
    requires v.Fits()
    ensures ParseInt(FormatInt(v.stamp)) == Some(v)
  {
    hide Format, Value;
    if v.stamp < 0 {
      ValueOfFormat(-v.stamp);
      assert FormatInt(v.stamp)[1..] == Format(-v.stamp);
    } else {
      ValueOfFormat(v.stamp);
      assert IsDigit(Format(v.stamp)[0]);
    }
  }

  /** A tag denotes a version exactly when it is that version's own canonical spelling. */
  lemma KeepsCanonical(tag: string, v: Version)
    ensures VersionOf(tag) == Some(v) <==> v.Fits() && tag == FormatInt(v.stamp)
  {
    hide ParseInt, FormatInt;
    if v.Fits() { ParseOfFormat(v); }
  }

  /** The entity tag of a monitor. */
  function ETag(v: Version): string { ['W', '/', '"'] + FormatInt(v.stamp) + ['"'] }

  /** A client that hands back the tag it was given is understood to mean that version. */
  lemma OwnETagParsesBack(v: Version)
    requires v.Fits()
    ensures Parse(ETag(v)) == List([FormatInt(v.stamp)])
    ensures Versions([FormatInt(v.stamp)]) == [v]
  {
    hide Parse, ParseInt, Format;
    var tag := FormatInt(v.stamp);
    var item := Item([], true, tag, []);
    NoQuote(v.stamp);
    RenderingParses([item]);
    assert Render([item]) == [] + Core(item, []) == ETag(v);
    assert Tags([item]) == [tag] + [] == [tag];
    KeepsCanonical(tag, v);
    assert Versions([tag][..0]) == [];
  }

  lemma NoQuote(n: int)
    ensures '"' !in FormatInt(n)
  {
    var s := Format(if n < 0 then -n else n);
    forall i | 0 <= i < |s| ensures s[i] != '"' { assert IsDigit(s[i]); }
  }
}
