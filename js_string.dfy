/** The JavaScript string operations the core relies on: the relational
    operators on strings, `trim`, `toUpperCase` on ASCII, the room-code
    pattern, `split(sep)[0]` and the decimal rendering of a natural number. */
module JsString {

  /** `a < b` on JavaScript strings: lexicographic by character, a proper
      prefix being smaller. Characters compare by code point, which agrees
      with JavaScript's UTF-16 code-unit order below U+10000. */
  predicate Less(a: string, b: string): (r: bool)
    ensures |a| < |b| && a == b[..|a|] ==> r
    decreases |a|
  {
    if |a| == 0 then |b| > 0
    else if |b| == 0 then false
    else if a[0] != b[0] then a[0] < b[0]
    else Less(a[1..], b[1..])
  }

  lemma {:induction false} LessIrreflexive(a: string)
    ensures !Less(a, a)
    decreases |a|
  {
    if |a| > 0 { LessIrreflexive(a[1..]); }
  }

  lemma {:induction false} LessAsymmetric(a: string, b: string)
    ensures Less(a, b) ==> !Less(b, a)
    decreases |a|
  {
    if |a| > 0 && |b| > 0 && a[0] == b[0] { LessAsymmetric(a[1..], b[1..]); }
  }

  /** Two different strings are always ordered one way or the other. */
  lemma {:induction false} LessTotal(a: string, b: string)
    ensures a != b ==> Less(a, b) || Less(b, a)
    decreases |a|
  {
    if |a| > 0 && |b| > 0 && a[0] == b[0] {
      LessTotal(a[1..], b[1..]);
      if a[1..] == b[1..] { assert a == [a[0]] + a[1..] && b == [b[0]] + b[1..]; }
    }
  }

  lemma {:induction false} LessTransitive(a: string, b: string, c: string)
    ensures Less(a, b) && Less(b, c) ==> Less(a, c)
    decreases |a|
  {
    if |a| > 0 && |b| > 0 && |c| > 0 && a[0] == b[0] && b[0] == c[0] {
      LessTransitive(a[1..], b[1..], c[1..]);
    }
  }

  /** `a <= b` on strings. */
  predicate Leq(a: string, b: string): (r: bool)
    ensures r <==> Less(a, b) || a == b
  {
    LessIrreflexive(a);
    LessTotal(a, b);
    LessAsymmetric(a, b);
    !Less(b, a)
  }

  lemma LeqTransitive(a: string, b: string, c: string)
    ensures Leq(a, b) && Leq(b, c) ==> Leq(a, c)
  {
    if Leq(a, b) && Leq(b, c) && Less(c, a) {
      LessTotal(a, b);
      LessTotal(b, c);
      if a == b {
      } else {
        LessTransitive(c, a, b);
      }
    }
  }

  lemma LeqTotal(a: string, b: string)
    ensures Leq(a, b) || Leq(b, a)
  {
    LessAsymmetric(a, b);
  }

  /** The characters `String.prototype.trim` removes: the ECMAScript
      WhiteSpace and LineTerminator code points. */
  predicate IsSpace(c: char) {
    c == '\t' || c == '\n' || c == '\U{000B}' || c == '\U{000C}' || c == '\r' || c == ' '
    || c == '\U{00A0}' || c == '\U{1680}' || ('\U{2000}' <= c <= '\U{200A}')
    || c == '\U{2028}' || c == '\U{2029}' || c == '\U{202F}' || c == '\U{205F}'
    || c == '\U{3000}' || c == '\U{FEFF}'
  }

  predicate AllSpace(s: string) {
    forall i :: 0 <= i < |s| ==> IsSpace(s[i])
  }

  function TrimStart(s: string): (r: string)
    ensures |r| <= |s| && r == s[|s| - |r|..]
    ensures AllSpace(s[..|s| - |r|])
    ensures r != [] ==> !IsSpace(r[0])
  {
    if |s| > 0 && IsSpace(s[0]) then
      var r := TrimStart(s[1..]);
      assert s[1..][..|s| - 1 - |r|] == s[1..|s| - |r|];
      r
    else s
  }

  function TrimEnd(s: string): (r: string)
    ensures |r| <= |s| && r == s[..|r|]
    ensures AllSpace(s[|r|..])
    ensures r != [] ==> !IsSpace(r[|r| - 1])
  {
    if |s| > 0 && IsSpace(s[|s| - 1]) then
      var r := TrimEnd(s[..|s| - 1]);
      assert r == s[..|s| - 1][..|r|] == s[..|r|];
      assert s[|r|..] == s[..|s| - 1][|r|..] + [s[|s| - 1]];
      r
    else s
  }

  /** `s.trim()`. */
  function Trim(s: string): (r: string)
    ensures |r| <= |s|
    ensures r != "" ==> !IsSpace(r[0]) && !IsSpace(r[|r| - 1])
  {
    TrimEnd(TrimStart(s))
  }

  /** The trimmed string is a contiguous piece of `s`, only spaces were cut
      away on either side, and it neither starts nor ends with a space. */
  lemma TrimMeaning(s: string)
    ensures exists i, j :: 0 <= i <= j <= |s| && Trim(s) == s[i..j]
              && AllSpace(s[..i]) && AllSpace(s[j..])
    ensures Trim(s) != "" ==> !IsSpace(Trim(s)[0]) && !IsSpace(Trim(s)[|Trim(s)| - 1])
  {
    var t := TrimStart(s);
    var i := |s| - |t|;
    var r := TrimEnd(t);
    var j := i + |r|;
    assert t == s[i..];
    assert r == s[i..j];
    assert s[j..] == t[|r|..];
  }

  /** A string is empty after trimming exactly when it is all spaces: the
      `!x || !x.trim()` guard of a required text field. */
  lemma {:induction false} TrimEmptyIffBlank(s: string)
    ensures Trim(s) == "" <==> AllSpace(s)
  {
    var t := TrimStart(s);
    if !AllSpace(s) {
      var k :| 0 <= k < |s| && !IsSpace(s[k]);
      assert k >= |s| - |t|;
      assert t[k - (|s| - |t|)] == s[k];
      NotAllSpaceTrimEnd(t, k - (|s| - |t|));
    }
  }

  lemma NotAllSpaceTrimEnd(t: string, k: nat)
    requires k < |t| && !IsSpace(t[k])
    ensures TrimEnd(t) != ""
  {
  }

  function UpperChar(c: char): char {
    if 'a' <= c <= 'z' then (c as int - 32) as char else c
  }

  /** `s.toUpperCase()` on the ASCII letters. */
  function ToUpper(s: string): (r: string)
    ensures |r| == |s|
  {
    seq(|s|, i requires 0 <= i < |s| => UpperChar(s[i]))
  }

  lemma ToUpperIdempotent(s: string)
    ensures ToUpper(ToUpper(s)) == ToUpper(s)
  {
  }

  predicate IsAsciiAlnum(c: char) {
    ('a' <= c <= 'z') || ('A' <= c <= 'Z') || ('0' <= c <= '9')
  }

  /** `/^[a-zA-Z0-9]{1,20}$/.test(s)`. */
  predicate IsRoomCode(s: string) {
    1 <= |s| <= 20 && forall i :: 0 <= i < |s| ==> IsAsciiAlnum(s[i])
  }

  /** Upper-casing keeps a room code a room code. */
  lemma ToUpperKeepsRoomCode(s: string)
    requires IsRoomCode(s)
    ensures IsRoomCode(ToUpper(s))
  {
  }

  lemma UpperCharKeepsAlnum(c: char)
    ensures IsAsciiAlnum(UpperChar(c)) <==> IsAsciiAlnum(c)
  {
  }

  /** Codes that are equal up to ASCII case are both valid or both
      invalid. */
  lemma CaseEquivalentRoomCode(a: string, b: string)
    requires ToUpper(a) == ToUpper(b)
    ensures IsRoomCode(a) <==> IsRoomCode(b)
  {
    assert |a| == |b|;
    forall i | 0 <= i < |a| ensures IsAsciiAlnum(a[i]) <==> IsAsciiAlnum(b[i]) {
      assert ToUpper(a)[i] == ToUpper(b)[i];
      UpperCharKeepsAlnum(a[i]);
      UpperCharKeepsAlnum(b[i]);
    }
  }

  /** `s.split(sep)[0]`: everything before the first `sep`, or all of `s`. */
  function FirstSegment(s: string, sep: char): (r: string)
    ensures |r| <= |s| && r == s[..|r|]
    ensures sep !in r
    ensures |r| < |s| ==> s[|r|] == sep
  {
    if s == [] || s[0] == sep then []
    else [s[0]] + FirstSegment(s[1..], sep)
  }

  function DigitChar(d: nat): char
    requires d < 10
  {
    ('0' as int + d) as char
  }

  /** `String(n)` for a natural number. */
  function NatToString(n: nat): (r: string)
    ensures |r| >= 1
    ensures forall i :: 0 <= i < |r| ==> '0' <= r[i] <= '9'
  {
    if n < 10 then [DigitChar(n)] else NatToString(n / 10) + [DigitChar(n % 10)]
  }

  lemma DigitCharInjective(a: nat, b: nat)
    requires a < 10 && b < 10
    ensures DigitChar(a) == DigitChar(b) ==> a == b
  {
  }

  /** Different numbers render differently. */
  lemma {:induction false} NatToStringInjective(a: nat, b: nat)
    ensures NatToString(a) == NatToString(b) ==> a == b
    decreases a
  {
    var s, t := NatToString(a), NatToString(b);
    if s == t {
      if a < 10 && b < 10 {
        DigitCharInjective(a, b);
      } else if a >= 10 && b >= 10 {
        assert s[|s| - 1] == t[|t| - 1];
        DigitCharInjective(a % 10, b % 10);
        assert s[..|s| - 1] == NatToString(a / 10);
        assert t[..|t| - 1] == NatToString(b / 10);
        NatToStringInjective(a / 10, b / 10);
      }
    }
  }

  /** The first segment of `a`, a separator and anything after it, is
      `a` when `a` has no separator. */
  lemma {:induction false} FirstSegmentPrefix(a: string, sep: char, rest: string)
    requires sep !in a
    ensures FirstSegment(a + [sep] + rest, sep) == a
    decreases |a|
  {
    var s := a + [sep] + rest;
    if a != [] {
      assert s[1..] == a[1..] + [sep] + rest;
      FirstSegmentPrefix(a[1..], sep, rest);
      assert a == [a[0]] + a[1..];
    }
  }
}
