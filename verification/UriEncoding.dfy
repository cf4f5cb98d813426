/** Percent-encoding as section 2.1 of RFC 3986 defines it, keeping only the unreserved characters of section 2.3. */
module UriEncoding {
  import opened Prelude

  /** A string whose characters are bytes. */
  predicate Bytes(s: string) { forall i :: 0 <= i < |s| ==> s[i] as int < 256 }

  predicate Unreserved(c: char) {
    'A' <= c <= 'Z' || 'a' <= c <= 'z' || '0' <= c <= '9' || c == '-' || c == '_' || c == '.' || c == '~'
  }

  predicate IsHex(c: char) { '0' <= c <= '9' || 'A' <= c <= 'F' }

  function HexDigit(d: nat): (c: char)
    requires d < 16
    ensures IsHex(c) && DigitValue(c) == d
  {
    if d < 10 then ('0' as int + d) as char else ('A' as int + d - 10) as char
  }

  function DigitValue(c: char): (d: nat)
    requires IsHex(c)
    ensures d < 16
  {
    if '0' <= c <= '9' then c as int - '0' as int else c as int - 'A' as int + 10
  }

  /** The byte stands for itself. */
  predicate Plain(c: char, encodeSlash: bool) { Unreserved(c) || (c == '/' && !encodeSlash) }

  function EncodedByte(c: char, encodeSlash: bool): (s: string)
    requires c as int < 256
    ensures |s| > 0
  {
    if Plain(c, encodeSlash) then [c] else ['%', HexDigit(c as int / 16), HexDigit(c as int % 16)]
  }

  function Encoded(s: string, encodeSlash: bool): string
    requires Bytes(s)
  {
    if |s| == 0 then [] else EncodedByte(s[0], encodeSlash) + Encoded(s[1..], encodeSlash)
  }

  lemma EncodedFrom(s: string, i: nat, encodeSlash: bool)
    requires Bytes(s) && i < |s|
    ensures Bytes(s[i..]) && Bytes(s[i + 1..])
    ensures Encoded(s[i..], encodeSlash) == EncodedByte(s[i], encodeSlash) + Encoded(s[i + 1..], encodeSlash)
  {
    assert s[i..][1..] == s[i + 1..];
  }

  lemma Glue(a: string, b: string, c: string)
    ensures a + (b + c) == (a + b) + c
  {
  }

  lemma AppendThree(a: string, x: char, y: char, z: char)
    ensures ((a + [x]) + [y]) + [z] == a + [x, y, z]
  {
  }

  method UriEncode(s: string, encodeSlash: bool) returns (out: string)
    requires Bytes(s)
    ensures out == Encoded(s, encodeSlash)
  {
    hide Unreserved, Encoded;
    out := [];
    ghost var whole := Encoded(s, encodeSlash);
    assert s[0..] == s && [] + whole == whole;
    for i := 0 to |s|
      invariant out + Encoded(s[i..], encodeSlash) == whole
    {
      var c := s[i];
      EncodedFrom(s, i, encodeSlash);
      Glue(out, EncodedByte(c, encodeSlash), Encoded(s[i + 1..], encodeSlash));
      if Unreserved(c) {
        out := out + [c];
      } else if c == '/' && !encodeSlash {
        out := out + [c];
      } else {
        AppendThree(out, '%', HexDigit(c as int / 16), HexDigit(c as int % 16));
        out := out + ['%'];
        out := out + [HexDigit(c as int / 16)];
        out := out + [HexDigit(c as int % 16)];
      }
    }
    EncodedOfNone(s[|s|..], encodeSlash);
    assert out + [] == out;
  }

  lemma EncodedOfNone(s: string, encodeSlash: bool)
    requires |s| == 0
    ensures Encoded(s, encodeSlash) == []
  {
  }

  /** Undoes percent-encoding; a percent sign must be followed by two hexadecimal digits. */
  function Decoded(t: string): Option<string>
    decreases |t|
  {
    if |t| == 0 then Some([])
    else if t[0] != '%' then Onto(t[0], Decoded(t[1..]))
    else if |t| < 3 || !IsHex(t[1]) || !IsHex(t[2]) then None
    else Onto((DigitValue(t[1]) * 16 + DigitValue(t[2])) as char, Decoded(t[3..]))
  }

  function Onto(c: char, rest: Option<string>): Option<string> {
    match rest
    case None => None
    case Some(s) => Some([c] + s)
  }

  lemma DecodedOfByte(c: char, encodeSlash: bool, rest: string)
    requires c as int < 256
    ensures Decoded(EncodedByte(c, encodeSlash) + rest) == Onto(c, Decoded(rest))
  {
    hide Onto;
    var e := EncodedByte(c, encodeSlash);
    var t := e + rest;
    assert t[|e|..] == rest;
    assert c as int / 16 * 16 + c as int % 16 == c as int;
  }

  /** Decoding undoes encoding, for every string of bytes. */
  lemma {:induction false} DecodedOfEncoded(s: string, encodeSlash: bool)
    requires Bytes(s)
    ensures Decoded(Encoded(s, encodeSlash)) == Some(s)
  {
    hide EncodedByte, Decoded;
    if |s| == 0 {
      DecodedOfNone();
      assert s == [];
    } else {
      DecodedOfEncoded(s[1..], encodeSlash);
      DecodedOfByte(s[0], encodeSlash, Encoded(s[1..], encodeSlash));
      assert [s[0]] + s[1..] == s;
    }
  }

  lemma DecodedOfNone()
    ensures Decoded([]) == Some([])
  {
  }

  /** Encoding loses nothing. */
  lemma EncodedInjective(a: string, b: string, encodeSlash: bool)
    requires Bytes(a) && Bytes(b) && Encoded(a, encodeSlash) == Encoded(b, encodeSlash)
    ensures a == b
  {
    DecodedOfEncoded(a, encodeSlash);
    DecodedOfEncoded(b, encodeSlash);
  }

  lemma {:induction false} EncodedOfBoth(a: string, b: string, encodeSlash: bool)
    requires Bytes(a) && Bytes(b)
    ensures Bytes(a + b) && Encoded(a + b, encodeSlash) == Encoded(a, encodeSlash) + Encoded(b, encodeSlash)
  {
    hide EncodedByte;
    if |a| == 0 {
      assert a + b == b && [] + Encoded(b, encodeSlash) == Encoded(b, encodeSlash);
    } else {
      assert (a + b)[0] == a[0] && (a + b)[1..] == a[1..] + b;
      EncodedOfBoth(a[1..], b, encodeSlash);
      var x, y, z := EncodedByte(a[0], encodeSlash), Encoded(a[1..], encodeSlash), Encoded(b, encodeSlash);
      assert (x + y) + z == x + (y + z);
    }
  }

  /** Unreserved characters, percent signs and, in a path, slashes. */
  predicate Clean(e: string, encodeSlash: bool) {
    forall i :: 0 <= i < |e| ==> e[i] == '%' || Plain(e[i], encodeSlash)
  }

  lemma {:induction false} EncodedIsClean(s: string, encodeSlash: bool)
    requires Bytes(s)
    ensures Clean(Encoded(s, encodeSlash), encodeSlash)
  {
    if |s| > 0 {
      EncodedIsClean(s[1..], encodeSlash);
      ByteIsClean(s[0], encodeSlash);
      CleanBoth(EncodedByte(s[0], encodeSlash), Encoded(s[1..], encodeSlash), encodeSlash);
    }
  }

  lemma CleanBoth(a: string, b: string, encodeSlash: bool)
    requires Clean(a, encodeSlash) && Clean(b, encodeSlash)
    ensures Clean(a + b, encodeSlash)
  {
    hide Plain;
  }

  lemma ByteIsClean(c: char, encodeSlash: bool)
    requires c as int < 256
    ensures Clean(EncodedByte(c, encodeSlash), encodeSlash)
  {
  }

  /** What needs no encoding is left alone. */
  lemma {:induction false} PlainStaysPlain(s: string, encodeSlash: bool)
    requires Bytes(s) && forall i :: 0 <= i < |s| ==> Plain(s[i], encodeSlash)
    ensures Encoded(s, encodeSlash) == s
  {
    if |s| > 0 {
      PlainStaysPlain(s[1..], encodeSlash);
      assert s == [s[0]] + s[1..];
    } else {
      assert s == [];
    }
  }

  function Slashes(s: string): nat {
    if |s| == 0 then 0 else (if s[0] == '/' then 1 else 0) + Slashes(s[1..])
  }

  /** Keeping the slashes saves two bytes for each. */
  lemma {:induction false} SlashCost(s: string)
    requires Bytes(s)
    ensures |Encoded(s, true)| == |Encoded(s, false)| + 2 * Slashes(s)
    ensures Slashes(s) == 0 ==> Encoded(s, true) == Encoded(s, false)
    ensures Slashes(s) == 0 <==> '/' !in s
  {
    if |s| > 0 {
      SlashCost(s[1..]);
      assert s == [s[0]] + s[1..];
    }
  }
}
