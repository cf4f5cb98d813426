/** Cutting text to a number of bytes without cutting a character: UTF-8 as section 4 of RFC 3629 defines it. */
module Utf8Cut {

  type Bytes = seq<bv8>

  const MAX_PUSH_MESSAGE: nat := 500

  /** b does not continue a character. */
  predicate Starts(b: bv8) { b < 0x80 || b >= 0xC0 }

  predicate Between(s: Bytes, i: nat, lo: bv8, hi: bv8) { i < |s| && lo <= s[i] <= hi }

  predicate Tail(s: Bytes, i: nat) { Between(s, i, 0x80, 0xBF) }

  /** How many bytes the character at the head of s takes, or none when there is no whole one. */
  function Head(s: Bytes): (k: nat)
    ensures k <= 4 && k <= |s|
  {
    if |s| == 0 then 0
    else if s[0] < 0x80 then 1
    else if 0xC2 <= s[0] <= 0xDF && Tail(s, 1) then 2
    else if (s[0] == 0xE0 && Between(s, 1, 0xA0, 0xBF) && Tail(s, 2))
         || (0xE1 <= s[0] <= 0xEC && Tail(s, 1) && Tail(s, 2))
         || (s[0] == 0xED && Between(s, 1, 0x80, 0x9F) && Tail(s, 2))
         || (0xEE <= s[0] <= 0xEF && Tail(s, 1) && Tail(s, 2)) then 3
    else if (s[0] == 0xF0 && Between(s, 1, 0x90, 0xBF) && Tail(s, 2) && Tail(s, 3))
         || (0xF1 <= s[0] <= 0xF3 && Tail(s, 1) && Tail(s, 2) && Tail(s, 3))
         || (s[0] == 0xF4 && Between(s, 1, 0x80, 0x8F) && Tail(s, 2) && Tail(s, 3)) then 4
    else 0
  }

  predicate Valid(s: Bytes) {
    |s| == 0 || (Head(s) > 0 && Valid(s[Head(s)..]))
  }

  /** Only the first byte of a character starts one. */
  lemma HeadShape(s: Bytes)
    requires Head(s) > 0
    ensures Starts(s[0]) && forall i :: 0 < i < Head(s) ==> !Starts(s[i])
  {
  }

  /** The head of s depends on no byte after it, and needs them all. */
  lemma HeadOfPrefix(s: Bytes, n: nat)
    requires n <= |s| && Head(s) > 0
    ensures Head(s[..n]) == if n >= Head(s) then Head(s) else 0
  {
  }

  lemma {:induction false} ValidFrom(s: Bytes, i: nat)
    requires Valid(s) && i <= |s|
    ensures Valid(s[..i]) <==> i == |s| || Starts(s[i])
  {
    hide Head, Starts;
    if i > 0 {
      var k := Head(s);
      HeadShape(s);
      HeadOfPrefix(s, i);
      if i >= k {
        ValidFrom(s[k..], i - k);
        assert s[..i][k..] == s[k..][..i - k];
      }
    } else {
      if |s| > 0 { HeadShape(s); }
    }
  }

  /** In valid text no character is longer than four bytes. */
  lemma {:induction false} StartIsNear(s: Bytes, i: nat)
    requires Valid(s) && i < |s|
    ensures exists j :: 0 <= j <= i && j + 3 >= i && Starts(s[j])
  {
    hide Starts;
    var k := Head(s);
    HeadShape(s);
    if i < k {
      assert Starts(s[0]);
    } else {
      StartIsNear(s[k..], i - k);
      var j :| 0 <= j <= i - k && j + 3 >= i - k && Starts(s[k..][j]);
      assert Starts(s[j + k]);
    }
  }

  /** r is the longest valid start of s of at most n bytes. */
  ghost predicate LongestValid(r: Bytes, s: Bytes, n: nat) {
    && r <= s && |r| <= n && Valid(r)
    && (forall m :: |r| < m <= n && m <= |s| ==> !Valid(s[..m]))
  }

  lemma WholeIsLongest(s: Bytes, n: nat)
    requires Valid(s) && |s| <= n
    ensures LongestValid(s, s, n)
  {
  }

  /** Cutting valid text at the last start at or before n is the longest there is. */
  lemma CutIsLongest(s: Bytes, n: nat, cut: nat)
    requires Valid(s) && cut <= n < |s| && (cut == 0 || Starts(s[cut])) && forall i :: cut < i <= n ==> !Starts(s[i])
    ensures LongestValid(s[..cut], s, n)
  {
    hide Valid, Starts;
    ValidFrom(s, cut);
    if cut == 0 { NothingIsValid(); }
    forall m | cut < m <= n ensures !Valid(s[..m]) { ValidFrom(s, m); }
  }

  lemma NothingIsValid()
    ensures Valid([])
  {
  }

  /** The longest start of s of at most n bytes that ends between characters, backing off three bytes at most. */
  method CutBytes(s: Bytes, n: int) returns (r: Bytes)
    ensures r <= s && |r| <= (if n < 0 then 0 else n) && (|s| <= n ==> r == s)
    ensures |s| > n && n >= 0 ==> n - 3 <= |r|
    ensures Valid(s) ==> LongestValid(r, s, if n < 0 then 0 else n)
  {
    hide Valid, Starts;
    var most := if n < 0 then 0 else n;
    if |s| <= n {
      if Valid(s) { WholeIsLongest(s, most); }
      return s;
    }
    var cut := most;
    var i := 0;
    while i < 3
      invariant 0 <= i <= 3 && 0 <= cut <= most && cut == most - i
      invariant forall k :: cut < k <= most ==> !Starts(s[k])
    {
      if cut == 0 || Starts(s[cut]) { break; }
      cut := cut - 1;
      i := i + 1;
    }
    r := s[..cut];
    if Valid(s) && 0 < |s| {
      StartIsNear(s, most);
      CutIsLongest(s, most, cut);
    }
  }

  // The note of a push report.

  /** U+FFFD, the replacement character. */
  const REPLACEMENT: Bytes := [0xEF, 0xBF, 0xBD]

  /** Every run of invalid bytes replaced by one replacement character; inRun says the byte before was invalid. */
  function ToValid(s: Bytes, inRun: bool): (r: Bytes)
    decreases |s|
  {
    if |s| == 0 then []
    else if Head(s) > 0 then s[..Head(s)] + ToValid(s[Head(s)..], false)
    else (if inRun then [] else REPLACEMENT) + ToValid(s[1..], true)
  }

  lemma ValidThen(a: Bytes, s: Bytes)
    requires Head(a) == |a| > 0 && Valid(s)
    ensures Valid(a + s)
  {
    hide Head;
    var t := a + s;
    HeadOfMore(a, s);
    assert t[|a|..] == s;
  }

  lemma HeadOfMore(a: Bytes, s: Bytes)
    requires Head(a) == |a| > 0
    ensures Head(a + s) == |a|
  {
  }

  lemma {:induction false} ToValidIsValid(s: Bytes, inRun: bool)
    ensures Valid(ToValid(s, inRun))
    decreases |s|
  {
    hide Head;
    if |s| > 0 {
      var k := Head(s);
      if k > 0 {
        ToValidIsValid(s[k..], false);
        HeadOfPrefix(s, k);
        ValidThen(s[..k], ToValid(s[k..], false));
      } else {
        ToValidIsValid(s[1..], true);
        var rest := ToValid(s[1..], true);
        ReplacementIsWhole();
        if inRun { assert [] + rest == rest; } else { ValidThen(REPLACEMENT, rest); }
      }
    }
  }

  lemma ReplacementIsWhole()
    ensures Head(REPLACEMENT) == 3 == |REPLACEMENT|
  {
  }

  /** Valid text is kept as it is. */
  lemma {:induction false} ToValidKeeps(s: Bytes, inRun: bool)
    requires Valid(s)
    ensures ToValid(s, inRun) == s
    decreases |s|
  {
    hide Head;
    if |s| > 0 { ToValidKeeps(s[Head(s)..], false); }
  }

  /** A note safe to store: valid, at most so many bytes, and as much of it as fits. */
  method PushMessage(raw: Bytes) returns (msg: Bytes)
    ensures Valid(msg) && |msg| <= MAX_PUSH_MESSAGE
    ensures LongestValid(msg, ToValid(raw, false), MAX_PUSH_MESSAGE)
    ensures |ToValid(raw, false)| > MAX_PUSH_MESSAGE ==> |msg| >= MAX_PUSH_MESSAGE - 3
    ensures Valid(raw) ==> LongestValid(msg, raw, MAX_PUSH_MESSAGE)
  {
    hide Valid, Starts, ToValid;
    var whole := ToValid(raw, false);
    ToValidIsValid(raw, false);
    if Valid(raw) { ToValidKeeps(raw, false); }
    if |whole| <= MAX_PUSH_MESSAGE {
      WholeIsLongest(whole, MAX_PUSH_MESSAGE);
      return whole;
    }
    var cut: nat := MAX_PUSH_MESSAGE;
    StartIsNear(whole, cut);
    while cut > 0 && !Starts(whole[cut])
      invariant 0 <= cut <= MAX_PUSH_MESSAGE
      invariant forall k :: cut < k <= MAX_PUSH_MESSAGE ==> !Starts(whole[k])
    {
      cut := cut - 1;
    }
    msg := whole[..cut];
    CutIsLongest(whole, MAX_PUSH_MESSAGE, cut);
  }
}
