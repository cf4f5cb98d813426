/** IPv6 addresses as a browser writes them, and reading them back. */
module Ipv6 {
  import opened Prelude

  // Pieces in hexadecimal.

  predicate IsHex(c: char) { '0' <= c <= '9' || 'a' <= c <= 'f' }

  function HexDigit(d: nat): (c: char)
    requires d < 16
    ensures IsHex(c)
  {
    if d < 10 then ('0' as int + d) as char else ('a' as int + d - 10) as char
  }

  function DigitValue(c: char): (d: nat)
    requires IsHex(c)
    ensures d < 16
  {
    if '0' <= c <= '9' then c as int - '0' as int else c as int - 'a' as int + 10
  }

  predicate HexWord(s: string) { forall i :: 0 <= i < |s| ==> IsHex(s[i]) }

  /** Lower-case, without leading zeroes. */
  function Hex(n: nat): (s: string)
    ensures s != [] && HexWord(s) && (n > 0 ==> s[0] != '0')
  {
    if n < 16 then [HexDigit(n)] else Hex(n / 16) + [HexDigit(n % 16)]
  }

  function HexValue(s: string): nat
    requires HexWord(s)
  {
    if s == [] then 0 else HexValue(s[..|s| - 1]) * 16 + DigitValue(s[|s| - 1])
  }

  lemma {:induction false} HexValueOfHex(n: nat)
    ensures HexValue(Hex(n)) == n
  {
    var s := Hex(n);
    if n < 16 {
      assert s[..|s| - 1] == [];
    } else {
      HexValueOfHex(n / 16);
      assert s[..|s| - 1] == Hex(n / 16);
    }
  }

  lemma {:induction false} HexLength(n: nat, w: nat, bound: nat)
    requires w > 0 && n < bound && bound == Power16(w)
    ensures |Hex(n)| <= w
  {
    if n >= 16 { HexLength(n / 16, w - 1, Power16(w - 1)); }
  }

  function Power16(w: nat): nat { if w == 0 then 1 else 16 * Power16(w - 1) }

  // The text form.

  /** One of the eight 16-bit pieces of an address. */
  datatype Piece = Piece(value: nat) {
    predicate Fits() { value < 0x10000 }

    predicate Zero() { value == 0 }
  }

  predicate ArePieces(p: seq<Piece>) { forall i :: 0 <= i < |p| ==> p[i].Fits() }

  /** Pieces with a colon between each two. */
  function Join(p: seq<Piece>): string {
    if p == [] then "" else if |p| == 1 then Hex(p[0].value) else Hex(p[0].value) + ":" + Join(p[1..])
  }

  /** How many zero pieces follow from i on. */
  function ZeroRun(p: seq<Piece>, i: nat): (n: nat)
    requires i <= |p|
    ensures i + n <= |p| && (forall k :: i <= k < i + n ==> p[k].Zero())
    ensures i + n < |p| ==> !p[i + n].Zero()
    decreases |p| - i
  {
    if i == |p| || !p[i].Zero() then 0 else 1 + ZeroRun(p, i + 1)
  }

  /** From c on, n pieces are the first of the longest runs of zeroes, and there are at least two. */
  ghost predicate FirstLongest(p: seq<Piece>, c: nat, n: nat) {
    && n >= 2 && c + n <= |p| && ZeroRun(p, c) == n
    && (forall i :: 0 <= i < |p| ==> ZeroRun(p, i) <= n)
    && (forall i :: 0 <= i < c ==> ZeroRun(p, i) < n)
  }

  ghost predicate NoRun(p: seq<Piece>) {
    forall i :: 0 <= i < |p| ==> ZeroRun(p, i) <= 1
  }

  /** The address with n pieces from c on cut to a double colon. */
  function Cut(p: seq<Piece>, c: nat, n: nat): string
    requires c + n <= |p|
  {
    Join(p[..c]) + "::" + Join(p[c + n..])
  }

  // Reading it back.

  /** Where the first colon is, or the length. */
  function Colon(s: string): (k: nat)
    ensures k <= |s| && (forall i :: 0 <= i < k ==> s[i] != ':') && (k < |s| ==> s[k] == ':')
  {
    if s == [] || s[0] == ':' then 0 else 1 + Colon(s[1..])
  }

  /** Groups of one to four hexadecimal digits, with a colon between each two. */
  function Groups(s: string): Option<seq<Piece>> {
    if s == [] then Some([]) else
      var k := Colon(s);
      var w := s[..k];
      if k == 0 || k > 4 || !HexWord(w) || k + 1 == |s| then None
      else if k == |s| then Some([Piece(HexValue(w))])
      else
        var rest := Groups(s[k + 1..]);
        if rest.None? then None else Some([Piece(HexValue(w))] + rest.value)
  }

  predicate DoubleAt(s: string, k: nat) { k + 1 < |s| && s[k] == ':' && s[k + 1] == ':' }

  /** Where the first double colon is, or the length. */
  function Double(s: string): (k: nat)
    ensures k <= |s| && (forall i :: 0 <= i < k ==> !DoubleAt(s, i)) && (k < |s| ==> DoubleAt(s, k))
  {
    if s == [] then 0
    else if DoubleAt(s, 0) then 0
    else
      var k := Double(s[1..]);
      assert forall i :: 0 < i < |s| ==> (DoubleAt(s, i) <==> DoubleAt(s[1..], i - 1));
      1 + k
  }

  function Zeroes(n: nat): seq<Piece> { seq(n, _ => Piece(0)) }

  /** The address a text stands for: eight groups, or fewer around one double colon. */
  function Parse(s: string): Option<seq<Piece>> {
    var k := Double(s);
    if k == |s| then
      var g := Groups(s);
      if g.Some? && |g.value| == 8 then g else None
    else
      var left, right := Groups(s[..k]), Groups(s[k + 2..]);
      if left.Some? && right.Some? && |left.value| + |right.value| < 8
      then Some(left.value + Zeroes(8 - |left.value| - |right.value|) + right.value) else None
  }

  // Round trips.

  /** No two colons meet in a joined list, and none stands at its ends. */
  lemma {:induction false} JoinIsSingle(p: seq<Piece>)
    ensures var s := Join(p);
      (forall k :: 0 <= k < |s| ==> !DoubleAt(s, k)) && (p != [] ==> s != [] && s[0] != ':' && s[|s| - 1] != ':')
  {
    if |p| > 1 {
      JoinIsSingle(p[1..]);
      var a, b := Hex(p[0].value), Join(p[1..]);
      var s := Join(p);
      assert s == a + ":" + b;
      forall k | 0 <= k < |s| ensures !DoubleAt(s, k) {
        if k > |a| { assert !DoubleAt(b, k - |a| - 1); }
      }
    }
  }

  /** The hexadecimal of a piece is a group that stands for it. */
  lemma HexOfPiece(n: nat)
    requires n < 0x10000
    ensures 1 <= |Hex(n)| <= 4 && HexWord(Hex(n)) && HexValue(Hex(n)) == n
  {
    HexValueOfHex(n);
    assert Power16(1) == 16 && Power16(2) == 256 && Power16(3) == 4096;
    HexLength(n, 4, 0x10000);
  }

  lemma GroupsOfWord(a: string)
    requires 1 <= |a| <= 4 && HexWord(a)
    ensures Groups(a) == Some([Piece(HexValue(a))])
  {
    ColonAfterWord(a, a);
    assert a[..|a|] == a;
  }

  lemma GroupsOfMore(a: string, r: string)
    requires 1 <= |a| <= 4 && HexWord(a) && r != [] && Groups(r).Some?
    ensures Groups(a + ":" + r) == Some([Piece(HexValue(a))] + Groups(r).value)
  {
    hide HexWord, HexValue;
    var s := a + ":" + r;
    ColonAfterWord(s, a);
    assert s[..|a|] == a && s[|a| + 1..] == r;
  }

  lemma {:induction false} GroupsOfJoin(p: seq<Piece>)
    requires ArePieces(p)
    ensures Groups(Join(p)) == Some(p)
  {
    hide Hex, HexWord, HexValue;
    if p != [] {
      hide Groups;
      HexOfPiece(p[0].value);
      assert Piece(p[0].value) == p[0];
      if |p| == 1 {
        assert [p[0]] == p;
        GroupsOfWord(Hex(p[0].value));
      } else {
        GroupsOfJoin(p[1..]);
        JoinIsSingle(p[1..]);
        GroupsOfMore(Hex(p[0].value), Join(p[1..]));
        assert [p[0]] + p[1..] == p;
      }
    }
  }

  lemma ColonAfterWord(s: string, a: string)
    requires HexWord(a) && a <= s && (|s| > |a| ==> s[|a|] == ':')
    ensures Colon(s) == |a|
  {
    assert forall i :: 0 <= i < |a| ==> IsHex(s[i]);
  }

  /** The double colon of a cut address is where it was put, and there is no other. */
  lemma CutDoublesOnce(p: seq<Piece>, c: nat, n: nat)
    requires c + n <= |p|
    ensures var s := Cut(p, c, n); forall k :: 0 <= k < |s| ==> (DoubleAt(s, k) <==> k == |Join(p[..c])|)
  {
    var a, b, s := Join(p[..c]), Join(p[c + n..]), Cut(p, c, n);
    JoinIsSingle(p[..c]);
    JoinIsSingle(p[c + n..]);
    forall k | 0 <= k < |s| ensures DoubleAt(s, k) <==> k == |a| {
      if k < |a| { assert !DoubleAt(a, k); }
      if k >= |a| + 2 { assert !DoubleAt(b, k - |a| - 2); }
      if k == |a| + 1 && b != [] { assert s[k + 1] == b[0]; }
    }
  }

  /** Cutting out a run of zeroes loses nothing. */
  lemma ParseOfCut(p: seq<Piece>, c: nat, n: nat)
    requires |p| == 8 && ArePieces(p) && n >= 1 && c + n <= 8 && forall i :: c <= i < c + n ==> p[i].Zero()
    ensures Parse(Cut(p, c, n)) == Some(p)
  {
    hide Groups, Join, DoubleAt;
    var a, b, s := Join(p[..c]), Join(p[c + n..]), Cut(p, c, n);
    CutDoublesOnce(p, c, n);
    DoubleFirst(s, |a|);
    assert s[..|a|] == a && s[|a| + 2..] == b;
    GroupsOfJoin(p[..c]);
    GroupsOfJoin(p[c + n..]);
    FilledIn(p, c, n);
  }

  lemma DoubleFirst(s: string, k: nat)
    requires k < |s| && forall j :: 0 <= j < |s| ==> (DoubleAt(s, j) <==> j == k)
    ensures Double(s) == k
  {
    hide DoubleAt;
    assert DoubleAt(s, k);
  }

  lemma FilledIn(p: seq<Piece>, c: nat, n: nat)
    requires c + n <= |p| && forall i :: c <= i < c + n ==> p[i].Zero()
    ensures p[..c] + Zeroes(n) + p[c + n..] == p
  {
  }

  lemma ParseOfJoin(p: seq<Piece>)
    requires |p| == 8 && ArePieces(p)
    ensures Parse(Join(p)) == Some(p)
  {
    JoinIsSingle(p);
    assert Double(Join(p)) == |Join(p)|;
    GroupsOfJoin(p);
  }

  // The serializer.

  /** Finds the run to cut: the first of the longest of two or more zero pieces. */
  method FindRun(p: seq<Piece>) returns (compress: int, longest: int)
    ensures compress == -1 ==> NoRun(p)
    ensures compress != -1 ==> compress >= 0 && longest >= 0 && FirstLongest(p, compress, longest)
  {
    compress, longest := -1, 1;
    var i := 0;
    while i < |p|
      invariant 0 <= i <= |p| && longest >= 1
      invariant i == 0 || i == |p| || !p[i].Zero() || !p[i - 1].Zero()
      invariant forall k :: 0 <= k < i ==> ZeroRun(p, k) <= longest
      invariant compress == -1 ==> longest == 1
      invariant compress != -1 ==>
        0 <= compress < i && longest >= 2 && ZeroRun(p, compress) == longest
        && forall k :: 0 <= k < compress ==> ZeroRun(p, k) < longest
    {
      if !p[i].Zero() {
        i := i + 1;
        continue;
      }
      var j := i;
      while j < |p| && p[j].Zero()
        invariant i <= j <= |p| && forall k :: i <= k < j ==> p[k].Zero()
      {
        j := j + 1;
      }
      RunsWithin(p, i, j);
      if j - i > longest {
        compress, longest := i, j - i;
      }
      i := j;
    }
  }

  /** Inside a run of zeroes, every position has what is left of it. */
  lemma {:induction false} RunsWithin(p: seq<Piece>, i: nat, j: nat)
    requires i <= j <= |p| && (forall k :: i <= k < j ==> p[k].Zero()) && (j < |p| ==> !p[j].Zero())
    ensures forall k :: i <= k <= j ==> ZeroRun(p, k) == j - k
    decreases j - i
  {
    if i < j { RunsWithin(p, i + 1, j); }
  }

  lemma JoinFrom(p: seq<Piece>, i: nat)
    requires i < |p|
    ensures Join(p[i..]) == if i == |p| - 1 then Hex(p[i].value) else Hex(p[i].value) + ":" + Join(p[i + 1..])
  {
    assert p[i..][1..] == p[i + 1..];
  }

  /** What is still to be written when the loop stands at piece i. */
  function Left(p: seq<Piece>, i: nat, c: int, n: int): string
    requires i <= |p| && (c == -1 || (0 <= c && n >= 2 && c + n <= |p|))
  {
    if c == -1 || i >= c + n then Join(p[i..])
    else if i >= c then (if i == 0 then "::" else ":") + Join(p[c + n..])
    else Join(p[i..c]) + "::" + Join(p[c + n..])
  }

  lemma LeftAtEnds(p: seq<Piece>, c: int, n: int)
    requires c == -1 || (0 <= c && n >= 2 && c + n <= |p|)
    ensures Left(p, 0, c, n) == if c == -1 then Join(p) else Cut(p, c, n)
    ensures Left(p, |p|, c, n) == ""
  {
    hide Join;
    JoinOfNone();
    assert p[|p|..] == [];
    if c == -1 {
      assert p[0..] == p;
    } else if c == 0 {
      assert p[..0] == [];
    } else {
      assert p[0..c] == p[..c];
    }
  }

  lemma JoinOfNone()
    ensures Join([]) == ""
  {
  }

  lemma LeftAfterPiece(p: seq<Piece>, i: nat, c: int, n: int)
    requires i < |p| && (c == -1 || (0 <= c && n >= 2 && c + n <= |p|)) && (c == -1 || i < c || i >= c + n)
    ensures Left(p, i, c, n) == Hex(p[i].value) + (if i < |p| - 1 then ":" else "") + Left(p, i + 1, c, n)
  {
    hide Hex;
    if i < c {
      assert p[..c][i..] == p[i..c] && p[..c][i + 1..] == p[i + 1..c];
      JoinFrom(p[..c], i);
    } else {
      JoinFrom(p, i);
    }
  }

  lemma LeftAtCut(p: seq<Piece>, c: int, n: int)
    requires 0 <= c && n >= 2 && c + n <= |p|
    ensures Left(p, c, c, n) == (if c == 0 then "::" else ":") + Left(p, c + n, c, n)
  {
    hide Join;
  }

  lemma Glue(out: string, a: string, b: string)
    ensures out + (a + b) == (out + a) + b
  {
  }

  method Write(p: seq<Piece>, compress: int, longest: int) returns (out: string)
    requires compress == -1 || (0 <= compress && longest >= 2 && compress + longest <= |p|)
    ensures out == if compress == -1 then Join(p) else Cut(p, compress, longest)
  {
    hide Join, Hex, Left, Cut;
    out := "";
    var i := 0;
    ghost var whole := Left(p, 0, compress, longest);
    LeftAtEnds(p, compress, longest);
    while i < |p|
      invariant 0 <= i <= |p| && (i <= compress || i >= compress + longest || compress == -1)
      invariant whole == out + Left(p, i, compress, longest)
    {
      if i == compress {
        LeftAtCut(p, compress, longest);
        Glue(out, if i == 0 then "::" else ":", Left(p, i + longest, compress, longest));
        out := out + if i == 0 then "::" else ":";
        i := i + longest;
        continue;
      }
      LeftAfterPiece(p, i, compress, longest);
      Glue(out, Hex(p[i].value), if i < |p| - 1 then ":" else "");
      Glue(out, Hex(p[i].value) + (if i < |p| - 1 then ":" else ""), Left(p, i + 1, compress, longest));
      out := out + Hex(p[i].value);
      if i < |p| - 1 { out := out + ":"; } else { assert out + "" == out; }
      i := i + 1;
    }
  }

  function PiecesOf(bytes: seq<bv8>): (p: seq<Piece>)
    requires |bytes| == 16
    ensures |p| == 8 && ArePieces(p)
  {
    seq(8, i requires 0 <= i < 8 => Piece(bytes[2 * i] as nat * 256 + bytes[2 * i + 1] as nat))
  }

  /**
   * The address as a browser writes it; address is what the host parses to, when it is an IPv6 address.
   * The text reads back as the same address, and at most one double colon stands for the first longest run.
   */
  method BrowserIpv6(host: string, address: Option<seq<bv8>>) returns (out: string)
    requires address.Some? ==> |address.value| == 16
    ensures address.None? ==> out == host
    ensures address.Some? ==>
      var p := PiecesOf(address.value);
      && Parse(out) == Some(p)
      && (forall j, k :: 0 <= j < |out| && 0 <= k < |out| && DoubleAt(out, j) && DoubleAt(out, k) ==> j == k)
      && ((NoRun(p) && out == Join(p)) || exists c: nat, n: nat :: FirstLongest(p, c, n) && out == Cut(p, c, n))
  {
    if address.None? { return host; }
    var p := PiecesOf(address.value);
    var compress, longest := FindRun(p);
    out := Write(p, compress, longest);
    if compress == -1 {
      ParseOfJoin(p);
      JoinIsSingle(p);
    } else {
      ParseOfCut(p, compress, longest);
      CutDoublesOnce(p, compress, longest);
      assert FirstLongest(p, compress, longest) && out == Cut(p, compress, longest);
    }
  }
}
