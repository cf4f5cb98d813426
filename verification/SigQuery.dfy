/** The canonical query of a signed request: sorted, encoded, and the same whatever order a map is walked in. */
module SigQuery {
  import opened Prelude
  import opened Lexical
  import opened UriEncoding

  datatype Pair = Pair(name: string, value: string) {
    predicate IsBytes() { Bytes(name) && Bytes(value) }

    function Encode(): Pair
      requires IsBytes()
    {
      Pair(Encoded(name, true), Encoded(value, true))
    }

    predicate Less(that: Pair) {
      Before(name, that.name) || (name == that.name && Before(value, that.value))
    }

    /** name=value */
    function Line(): string { name + (['='] + value) }
  }

  predicate AllBytes(s: seq<Pair>) { forall i :: 0 <= i < |s| ==> s[i].IsBytes() }

  // The library's sort, and what makes its result unique.

  lemma LessTotal(a: Pair, b: Pair)
    ensures a.Less(b) || b.Less(a) || a == b
    ensures !(a.Less(b) && b.Less(a))
  {
    BeforeTotal(a.name, b.name);
    BeforeTotal(a.value, b.value);
    BeforeTotal(a.name, a.name);
  }

  lemma LessTransitive(a: Pair, b: Pair, c: Pair)
    ensures a.Less(b) && b.Less(c) ==> a.Less(c)
  {
    BeforeTransitive(a.name, b.name, c.name);
    BeforeTransitive(a.value, b.value, c.value);
  }

  /** Nothing comes after something greater. */
  ghost predicate InOrder(s: seq<Pair>) {
    forall i, j :: 0 <= i < j < |s| ==> !s[j].Less(s[i])
  }

  function Insert(s: seq<Pair>, x: Pair): (r: seq<Pair>)
    ensures multiset(r) == multiset(s) + multiset{x}
  {
    if |s| == 0 then [x]
    else if !s[0].Less(x) then [x] + s
    else (assert s == [s[0]] + s[1..]; [s[0]] + Insert(s[1..], x))
  }

  function Sorted(s: seq<Pair>): (r: seq<Pair>)
    ensures multiset(r) == multiset(s)
  {
    if |s| == 0 then [] else (assert s == [s[0]] + s[1..]; Insert(Sorted(s[1..]), s[0]))
  }

  lemma NotLessTransitive(a: Pair, b: Pair, c: Pair)
    ensures !b.Less(a) && !c.Less(b) ==> !c.Less(a)
  {
    LessTotal(a, b);
    LessTotal(b, c);
    LessTotal(a, c);
    LessTransitive(c, a, b);
    LessTransitive(b, c, a);
  }

  lemma {:induction false} InsertInOrder(s: seq<Pair>, x: Pair)
    requires InOrder(s)
    ensures InOrder(Insert(s, x))
  {
    if |s| > 0 {
      LessTotal(s[0], x);
      if !s[0].Less(x) {
        forall j | 0 <= j < |s| ensures !s[j].Less(x) { NotLessTransitive(x, s[0], s[j]); }
      } else {
        var rest := Insert(s[1..], x);
        InsertInOrder(s[1..], x);
        forall j | 0 <= j < |rest| ensures !rest[j].Less(s[0]) {
          assert rest[j] in multiset(rest);
          assert rest[j] == x || rest[j] in s[1..];
        }
      }
    }
  }

  lemma {:induction false} SortedInOrder(s: seq<Pair>)
    ensures InOrder(Sorted(s))
  {
    if |s| > 0 {
      SortedInOrder(s[1..]);
      InsertInOrder(Sorted(s[1..]), s[0]);
    }
  }

  /** In order, with the same elements: then they begin with the same one. */
  lemma SameHead(a: seq<Pair>, b: seq<Pair>)
    requires InOrder(a) && InOrder(b) && multiset(a) == multiset(b) && |a| > 0
    ensures |b| > 0 && a[0] == b[0]
  {
    assert a[0] in multiset(a);
    assert a[0] in b;
    assert b[0] in multiset(b);
    assert b[0] in a;
    HeadIsLeast(a, b[0]);
    HeadIsLeast(b, a[0]);
    LessTotal(a[0], b[0]);
  }

  lemma HeadIsLeast(a: seq<Pair>, x: Pair)
    requires InOrder(a) && |a| > 0 && x in a
    ensures !x.Less(a[0])
  {
    var i :| 0 <= i < |a| && a[i] == x;
    if i == 0 { LessTotal(x, x); }
  }

  lemma WithoutHead(a: seq<Pair>)
    requires |a| > 0
    ensures multiset(a) == multiset(a[1..]) + multiset{a[0]}
  {
    assert a == [a[0]] + a[1..];
  }

  lemma SameRest(a: seq<Pair>, b: seq<Pair>)
    requires |a| > 0 && |b| > 0 && a[0] == b[0] && multiset(a) == multiset(b)
    ensures multiset(a[1..]) == multiset(b[1..])
  {
    WithoutHead(a);
    WithoutHead(b);
    assert multiset(a[1..]) == multiset(a) - multiset{a[0]};
    assert multiset(b[1..]) == multiset(b) - multiset{b[0]};
  }

  /** There is only one way to put the same pairs in order. */
  lemma {:induction false} OneOrder(a: seq<Pair>, b: seq<Pair>)
    requires InOrder(a) && InOrder(b) && multiset(a) == multiset(b)
    ensures a == b
  {
    hide InOrder;
    if |a| > 0 {
      SameHead(a, b);
      SameRest(a, b);
      InOrderWithoutHead(a);
      InOrderWithoutHead(b);
      OneOrder(a[1..], b[1..]);
      assert a == [a[0]] + a[1..] && b == [b[0]] + b[1..];
    } else {
      assert a == [] && |multiset(b)| == 0;
    }
  }

  lemma InOrderWithoutHead(a: seq<Pair>)
    requires InOrder(a) && |a| > 0
    ensures InOrder(a[1..])
  {
  }

  // The query.

  type Query = map<string, seq<string>>

  /** How often q has this name with this value. */
  function Count(q: Query, name: string, value: string): nat {
    if name in q then multiset(q[name])[value] else 0
  }

  /** pairs lists q: every name with each of its values, as often as it has it, in any order. */
  ghost predicate Lists(pairs: seq<Pair>, q: Query) {
    forall name, value :: multiset(pairs)[Pair(name, value)] == Count(q, name, value)
  }

  function EncodeAll(s: seq<Pair>): (r: seq<Pair>)
    requires AllBytes(s)
    ensures |r| == |s| && forall i :: 0 <= i < |s| ==> r[i] == s[i].Encode()
  {
    seq(|s|, i requires 0 <= i < |s| => s[i].Encode())
  }

  /** The lines with an ampersand between each two. */
  function Joined(s: seq<Pair>): string {
    if |s| == 0 then []
    else if |s| == 1 then s[0].Line()
    else s[0].Line() + (['&'] + Joined(s[1..]))
  }

  function Canonical(pairs: seq<Pair>): string
    requires AllBytes(pairs)
  {
    Joined(Sorted(EncodeAll(pairs)))
  }

  predicate QueryBytes(q: Query) {
    forall name :: name in q ==> Bytes(name) && forall i :: 0 <= i < |q[name]| ==> Bytes(q[name][i])
  }

  /** The pairs of the names met so far. */
  ghost predicate ListsBut(pairs: seq<Pair>, q: Query, left: set<string>) {
    forall name, value :: multiset(pairs)[Pair(name, value)] == if name in left then 0 else Count(q, name, value)
  }

  /** Encodes one name with each of its values, and appends the pairs. */
  method AppendValues(k: string, values: seq<string>, pairs: seq<Pair>, ghost raw: seq<Pair>)
    returns (out: seq<Pair>, ghost all: seq<Pair>)
    requires AllBytes(raw) && pairs == EncodeAll(raw) && Bytes(k) && forall i :: 0 <= i < |values| ==> Bytes(values[i])
    ensures AllBytes(all) && out == EncodeAll(all)
    ensures all == raw + seq(|values|, i requires 0 <= i < |values| => Pair(k, values[i]))
  {
    hide Encoded, Bytes;
    out, all := pairs, raw;
    for i := 0 to |values|
      invariant AllBytes(all) && out == EncodeAll(all)
      invariant all == raw + seq(i, j requires 0 <= j < i => Pair(k, values[j]))
    {
      var name := UriEncode(k, true);
      var value := UriEncode(values[i], true);
      out := out + [Pair(name, value)];
      all := all + [Pair(k, values[i])];
    }
  }

  lemma {:induction false} ValuesCount(k: string, values: seq<string>, n: nat, name: string, value: string)
    requires n <= |values|
    ensures multiset(seq(n, j requires 0 <= j < n => Pair(k, values[j])))[Pair(name, value)]
         == if name == k then multiset(values[..n])[value] else 0
  {
    if n > 0 {
      ValuesCount(k, values, n - 1, name, value);
      var s, t := seq(n, j requires 0 <= j < n => Pair(k, values[j])), seq(n - 1, j requires 0 <= j < n - 1 => Pair(k, values[j]));
      assert s == t + [Pair(k, values[n - 1])];
      assert values[..n] == values[..n - 1] + [values[n - 1]];
    }
  }

  lemma OneNameMore(q: Query, left: set<string>, k: string, before: seq<Pair>, after: seq<Pair>)
    requires k in left && k in q && ListsBut(before, q, left)
    requires after == before + seq(|q[k]|, i requires 0 <= i < |q[k]| => Pair(k, q[k][i]))
    ensures ListsBut(after, q, left - {k})
  {
    var more := seq(|q[k]|, i requires 0 <= i < |q[k]| => Pair(k, q[k][i]));
    forall name, value
      ensures multiset(after)[Pair(name, value)] == if name in left - {k} then 0 else Count(q, name, value)
    {
      ValuesCount(k, q[k], |q[k]|, name, value);
      assert q[k][..|q[k]|] == q[k];
      assert multiset(after)[Pair(name, value)] == multiset(before)[Pair(name, value)] + multiset(more)[Pair(name, value)];
    }
  }

  /** Walks the map in whatever order it comes in: the result is the canonical form of every listing of it. */
  method CanonicalQuery(q: Query) returns (r: string)
    requires QueryBytes(q)
    ensures exists pairs :: AllBytes(pairs) && Lists(pairs, q)
    ensures forall pairs :: AllBytes(pairs) && Lists(pairs, q) ==> r == Canonical(pairs)
  {
    hide Encoded, Bytes, ListsBut, Joined, Sorted, Canonical, Lists;
    var left, pairs: seq<Pair> := q.Keys, [];
    ghost var raw: seq<Pair> := [];
    NoPairs(q);
    while left != {}
      invariant forall k :: k in left ==> k in q
      invariant ListsBut(raw, q, left) && AllBytes(raw) && pairs == EncodeAll(raw)
      decreases |left|
    {
      var k :| k in left;
      ghost var before := raw;
      pairs, raw := AppendValues(k, q[k], pairs, raw);
      OneNameMore(q, left, k, before, raw);
      left := left - {k};
    }
    AllNames(raw, q);
    r := Join(Sorted(pairs));
    CanonicalOf(raw);
    forall other | AllBytes(other) && Lists(other, q) ensures r == Canonical(other) {
      OrderDoesNotMatter(q, raw, other);
    }
  }

  lemma CanonicalOf(pairs: seq<Pair>)
    requires AllBytes(pairs)
    ensures Canonical(pairs) == Joined(Sorted(EncodeAll(pairs)))
  {
  }

  lemma NoPairs(q: Query)
    ensures ListsBut([], q, q.Keys)
  {
  }

  lemma AllNames(raw: seq<Pair>, q: Query)
    requires ListsBut(raw, q, {})
    ensures Lists(raw, q)
  {
  }

  lemma JoinedFrom(s: seq<Pair>, i: nat)
    requires i < |s|
    ensures Joined(s[i..]) == if i == |s| - 1 then s[i].Line() else s[i].Line() + (['&'] + Joined(s[i + 1..]))
  {
    assert s[i..][1..] == s[i + 1..];
  }

  /** The library's join, of the lines of the pairs. */
  method Join(s: seq<Pair>) returns (r: string)
    ensures r == Joined(s)
  {
    hide Joined;
    r := [];
    if |s| == 0 {
      JoinedOfNone(s);
      return;
    }
    var i := |s| - 1;
    JoinedFrom(s, i);
    r := s[i].Line();
    while i > 0
      invariant 0 <= i < |s| && r == Joined(s[i..])
    {
      i := i - 1;
      JoinedFrom(s, i);
      r := s[i].Line() + (['&'] + r);
    }
    assert s[0..] == s;
  }

  lemma JoinedOfNone(s: seq<Pair>)
    requires |s| == 0
    ensures Joined(s) == []
  {
  }

  lemma {:induction false} EncodedCount(s: seq<Pair>, p: Pair)
    requires AllBytes(s) && p.IsBytes()
    ensures multiset(EncodeAll(s))[p.Encode()] == multiset(s)[p]
  {
    hide Encoded, Bytes;
    if |s| == 0 {
      assert s == [];
    } else {
      var front, last := s[..|s| - 1], s[|s| - 1];
      EncodedCount(front, p);
      assert s == front + [last] && EncodeAll(s) == EncodeAll(front) + [last.Encode()];
      EncodeInjective(last, p);
    }
  }

  lemma EncodeInjective(a: Pair, b: Pair)
    requires a.IsBytes() && b.IsBytes()
    ensures a.Encode() == b.Encode() ==> a == b
  {
    hide Encoded, Bytes;
    if a.Encode() == b.Encode() {
      EncodedInjective(a.name, b.name, true);
      EncodedInjective(a.value, b.value, true);
    }
  }

  /** The canonical query does not depend on the order the map is walked in. */
  lemma OrderDoesNotMatter(q: Query, a: seq<Pair>, b: seq<Pair>)
    requires AllBytes(a) && AllBytes(b) && Lists(a, q) && Lists(b, q)
    ensures Canonical(a) == Canonical(b)
  {
    hide Bytes, Encoded, Joined, Sorted;
    var x, y := EncodeAll(a), EncodeAll(b);
    forall e ensures multiset(x)[e] == multiset(y)[e] {
      SameEncodedCount(q, a, b, e);
    }
    assert multiset(x) == multiset(y);
    SortedInOrder(x);
    SortedInOrder(y);
    OneOrder(Sorted(x), Sorted(y));
  }

  lemma SameEncodedCount(q: Query, a: seq<Pair>, b: seq<Pair>, e: Pair)
    requires AllBytes(a) && AllBytes(b) && Lists(a, q) && Lists(b, q)
    ensures multiset(EncodeAll(a))[e] == multiset(EncodeAll(b))[e]
  {
    hide Bytes, Encoded;
    if e in EncodeAll(a) {
      var i :| 0 <= i < |a| && EncodeAll(a)[i] == e;
      SameCount(q, a, b, a[i]);
    } else if e in EncodeAll(b) {
      var i :| 0 <= i < |b| && EncodeAll(b)[i] == e;
      SameCount(q, a, b, b[i]);
    }
  }

  lemma SameCount(q: Query, a: seq<Pair>, b: seq<Pair>, p: Pair)
    requires AllBytes(a) && AllBytes(b) && Lists(a, q) && Lists(b, q) && p.IsBytes()
    ensures multiset(EncodeAll(a))[p.Encode()] == multiset(EncodeAll(b))[p.Encode()]
  {
    hide Bytes, Encoded;
    EncodedCount(a, p);
    EncodedCount(b, p);
    assert p == Pair(p.name, p.value);
  }

  // Reading it back.

  function Find(s: string, c: char): (k: nat)
    ensures k <= |s| && (forall i :: 0 <= i < k ==> s[i] != c) && (k < |s| ==> s[k] == c)
  {
    if |s| == 0 || s[0] == c then 0 else 1 + Find(s[1..], c)
  }

  /** Splits at every ampersand, and each part at its first equals sign. */
  function Read(s: string): seq<Pair>
    decreases |s|
  {
    if |s| == 0 then [] else
      var amp := Find(s, '&');
      var p := ReadPart(s[..amp]);
      if amp == |s| then [p] else [p] + Read(s[amp + 1..])
  }

  predicate AllSeparable(s: seq<Pair>) { forall i :: 0 <= i < |s| ==> Separable(s[i]) }

  predicate Separable(p: Pair) { '&' !in p.name && '=' !in p.name && '&' !in p.value }

  lemma FindIn(a: string, c: char, b: string)
    requires c !in a && (|b| == 0 || b[0] == c)
    ensures Find(a + b, c) == |a|
  {
    hide Find;
    var s := a + b;
    assert forall i :: 0 <= i < |a| ==> s[i] == a[i] && a[i] in a;
    if |b| > 0 { assert s[|a|] == c; }
  }

  /** The pair a part without ampersand stands for. */
  function ReadPart(part: string): Pair {
    var eq := Find(part, '=');
    if eq == |part| then Pair(part, []) else Pair(part[..eq], part[eq + 1..])
  }

  lemma PartOfLine(p: Pair)
    requires Separable(p)
    ensures ReadPart(p.Line()) == p && '&' !in p.Line()
  {
    hide Find;
    var line := p.Line();
    FindIn(p.name, '=', ['='] + p.value);
    assert line[..|p.name|] == p.name && line[|p.name| + 1..] == p.value;
  }

  lemma ReadLine(p: Pair, rest: string)
    requires Separable(p) && (|rest| == 0 || (|rest| > 1 && rest[0] == '&'))
    ensures Read(p.Line() + rest) == if |rest| == 0 then [p] else [p] + Read(rest[1..])
  {
    hide Find, ReadPart, Separable;
    var line := p.Line();
    PartOfLine(p);
    ReadFront(line, rest);
  }

  lemma ReadFront(line: string, rest: string)
    requires |line| > 0 && '&' !in line && (|rest| == 0 || (|rest| > 1 && rest[0] == '&'))
    ensures Read(line + rest) == if |rest| == 0 then [ReadPart(line)] else [ReadPart(line)] + Read(rest[1..])
  {
    hide Find, ReadPart;
    var s := line + rest;
    FindIn(line, '&', rest);
    assert s[..|line|] == line;
    if |rest| > 0 { assert s[|line| + 1..] == rest[1..]; }
  }

  lemma {:induction false} ReadJoined(s: seq<Pair>)
    requires AllSeparable(s)
    ensures Read(Joined(s)) == s
  {
    hide Read, Separable;
    if |s| == 0 {
      ReadNone();
      assert s == [];
    } else if |s| == 1 {
      ReadLine(s[0], []);
      assert s[0].Line() + [] == s[0].Line();
      assert s == [s[0]];
    } else {
      ReadJoined(s[1..]);
      var rest := ['&'] + Joined(s[1..]);
      ReadLine(s[0], rest);
      assert rest[1..] == Joined(s[1..]);
      assert s == [s[0]] + s[1..];
    }
  }

  lemma ReadNone()
    ensures Read([]) == []
  {
  }

  lemma EncodedIsSeparable(p: Pair)
    requires p.IsBytes()
    ensures Separable(p.Encode())
  {
    hide Encoded;
    EncodedIsClean(p.name, true);
    EncodedIsClean(p.value, true);
  }

  lemma SortedIsSeparable(s: seq<Pair>)
    requires AllBytes(s)
    ensures AllSeparable(Sorted(EncodeAll(s)))
  {
    hide Sorted, Separable, Encoded, Bytes;
    var e := EncodeAll(s);
    forall i | 0 <= i < |Sorted(e)| ensures Separable(Sorted(e)[i]) {
      assert Sorted(e)[i] in multiset(Sorted(e));
      assert Sorted(e)[i] in e;
      var j :| 0 <= j < |s| && e[j] == Sorted(e)[i];
      EncodedIsSeparable(s[j]);
    }
  }

  /** Two queries with one canonical form have the same pairs, each as often. */
  lemma DeterminesPairs(p: Query, a: seq<Pair>, q: Query, b: seq<Pair>)
    requires AllBytes(a) && AllBytes(b) && Lists(a, p) && Lists(b, q) && QueryBytes(p) && QueryBytes(q)
    requires Canonical(a) == Canonical(b)
    ensures forall name, value :: Count(p, name, value) == Count(q, name, value)
  {
    hide Bytes, Encoded, Joined, Sorted, AllSeparable, Read;
    SortedIsSeparable(a);
    SortedIsSeparable(b);
    ReadJoined(Sorted(EncodeAll(a)));
    ReadJoined(Sorted(EncodeAll(b)));
    assert multiset(EncodeAll(a)) == multiset(EncodeAll(b));
    forall name, value ensures Count(p, name, value) == Count(q, name, value) {
      SameRawCount(a, b, Pair(name, value));
    }
  }

  lemma SameRawCount(a: seq<Pair>, b: seq<Pair>, p: Pair)
    requires AllBytes(a) && AllBytes(b) && multiset(EncodeAll(a)) == multiset(EncodeAll(b))
    ensures multiset(a)[p] == multiset(b)[p]
  {
    hide Bytes, Encoded;
    if p.IsBytes() {
      EncodedCount(a, p);
      EncodedCount(b, p);
    } else {
      assert p !in a && p !in b;
    }
  }
}
