/** Character classes and string helpers with Python 3 `str` semantics,
    as far as the Latin-1 range (see README, "Left out", for the rest). */
module Chars {

  /** `\d` of the `re` module, restricted to ASCII digits. */
  predicate IsDigit(c: char) {
    '0' <= c <= '9'
  }

  /** `str.isspace()`, which is also what `\s` matches in a `str` pattern:
      the complete list of Unicode whitespace code points Python recognises. */
  predicate IsSpace(c: char) {
    ('\t' <= c <= '\r') || ('\U{1C}' <= c <= '\U{1F}') || c == ' ' ||
    c == '\U{85}' || c == '\U{A0}' || c == '\U{1680}' ||
    ('\U{2000}' <= c <= '\U{200A}') || c == '\U{2028}' || c == '\U{2029}' ||
    c == '\U{202F}' || c == '\U{205F}' || c == '\U{3000}'
  }

  predicate IsAsciiLetter(c: char) {
    ('a' <= c <= 'z') || ('A' <= c <= 'Z')
  }

  /** The word characters that `\b` looks at: alphanumerics and the underscore
      (Latin-1 letters and numerics included, code points above U+00FF not). */
  predicate IsWordChar(c: char) {
    IsDigit(c) || IsAsciiLetter(c) || c == '_' ||
    c == '\U{AA}' || c == '\U{B2}' || c == '\U{B3}' || c == '\U{B5}' ||
    c == '\U{B9}' || c == '\U{BA}' || ('\U{BC}' <= c <= '\U{BE}') ||
    ('\U{C0}' <= c <= '\U{FF}' && c != '\U{D7}' && c != '\U{F7}')
  }

  /** `str.lower()` on one character of the Latin-1 range. */
  function Lower(c: char): (r: char)
    ensures IsAsciiLetter(c) ==> r == c || r as int == c as int + 32
    ensures IsAsciiLetter(c) ==> 'a' <= r <= 'z'
    ensures !IsAsciiLetter(c) ==> !IsAsciiLetter(r)
  {
    if 'A' <= c <= 'Z' || ('\U{C0}' <= c <= '\U{DE}' && c != '\U{D7}') then
      (c as int + 32) as char
    else
      c
  }

  function LowerText(s: string): (r: string)
    ensures |r| == |s|
    ensures forall i | 0 <= i < |s| :: r[i] == Lower(s[i])
  {
    if s == [] then [] else [Lower(s[0])] + LowerText(s[1..])
  }

  /** The whitespace a stripping operation removes. `str.strip()` removes
      every character `str.isspace()` accepts (`TextBlanks`). `float()`
      removes the ASCII whitespace " \t\n\v\f\r" and, after mapping every
      non-ASCII whitespace character to a space, those too; the separators
      U+001C to U+001F stay and make it fail (`FloatBlanks`). */
  datatype Blanks = TextBlanks | FloatBlanks

  predicate IsBlank(k: Blanks, c: char) {
    IsSpace(c) && (k == FloatBlanks ==> !('\U{1C}' <= c <= '\U{1F}'))
  }

  predicate AllBlank(k: Blanks, s: string) {
    forall i | 0 <= i < |s| :: IsBlank(k, s[i])
  }

  /** Digits, points and signs are blanks of neither kind. */
  lemma NotBlank(k: Blanks, c: char)
    requires IsDigit(c) || c == '.' || c == '+' || c == '-'
    ensures !IsBlank(k, c)
  {
  }

  /** `r` is `s` from position `a` on, with only whitespace before and after. */
  predicate Trims(k: Blanks, s: string, a: nat, r: string) {
    a + |r| <= |s| && r == s[a..a + |r|] && AllBlank(k, s[..a]) && AllBlank(k, s[a + |r|..])
  }

  /** Drops leading and trailing whitespace of kind `k`: `str.strip()` for
      `TextBlanks`, the stripping inside `float()` for `FloatBlanks`. The
      result is a slice of the input with only such whitespace around it. */
  function Strip(k: Blanks, s: string): (r: string)
    ensures |r| <= |s|
    ensures exists a: nat :: Trims(k, s, a, r)
    ensures r != [] ==> !IsBlank(k, r[0]) && !IsBlank(k, r[|r| - 1])
    ensures AllBlank(k, s) <==> r == []
    ensures s != [] && !IsBlank(k, s[0]) && !IsBlank(k, s[|s| - 1]) ==> r == s
  {
    StripSlice(k, s);
    StripRight(k, StripLeft(k, s))
  }

  lemma StripSlice(k: Blanks, s: string)
    ensures Trims(k, s, |s| - |StripLeft(k, s)|, StripRight(k, StripLeft(k, s)))
  {
    var l := StripLeft(k, s);
    var r := StripRight(k, l);
    var a := |s| - |l|;
    InnerSlice(s, a, l, r);
    SpacesBefore(k, s, a);
    SpacesAfter(k, s, a, l, r);
    assert Trims(k, s, a, r);
  }

  lemma InnerSlice(s: string, a: nat, l: string, r: string)
    requires a + |l| == |s| && l == s[a..] && |r| <= |l| && r == l[..|r|]
    ensures r == s[a..a + |r|]
  {
  }

  lemma SpacesBefore(k: Blanks, s: string, a: nat)
    requires a <= |s| && forall i | 0 <= i < a :: IsBlank(k, s[i])
    ensures AllBlank(k, s[..a])
  {
    var t := s[..a];
    forall i | 0 <= i < |t|
      ensures IsBlank(k, t[i])
    {
      assert t[i] == s[i];
    }
  }

  lemma SpacesAfter(k: Blanks, s: string, a: nat, l: string, r: string)
    requires a + |l| == |s| && l == s[a..] && |r| <= |l|
    requires forall i | |r| <= i < |l| :: IsBlank(k, l[i])
    ensures AllBlank(k, s[a + |r|..])
  {
    var t := s[a + |r|..];
    forall i | 0 <= i < |t|
      ensures IsBlank(k, t[i])
    {
      assert t[i] == l[|r| + i];
    }
  }

  /** Blanks, then a part with non-blank ends, then blanks: stripping gives
      that part. */
  lemma StripPadded(k: Blanks, pre: string, u: string, post: string)
    requires AllBlank(k, pre) && AllBlank(k, post)
    requires u != [] && !IsBlank(k, u[0]) && !IsBlank(k, u[|u| - 1])
    ensures Strip(k, pre + u + post) == u
  {
    assert pre + u + post == pre + (u + post);
    StripLeftPadded(k, pre, u + post);
    StripRightPadded(k, u, post);
  }

  lemma {:induction false} StripLeftPadded(k: Blanks, pre: string, v: string)
    requires AllBlank(k, pre) && v != [] && !IsBlank(k, v[0])
    ensures StripLeft(k, pre + v) == v
    decreases |pre|
  {
    var w := pre + v;
    if pre == [] {
      assert w == v;
    } else {
      assert w[0] == pre[0] && IsBlank(k, w[0]);
      assert w[1..] == pre[1..] + v;
      assert AllBlank(k, pre[1..]) by {
        forall i | 0 <= i < |pre| - 1
          ensures IsBlank(k, pre[1..][i])
        {
          assert pre[1..][i] == pre[i + 1];
        }
      }
      StripLeftPadded(k, pre[1..], v);
      assert StripLeft(k, w) == StripLeft(k, w[1..]);
    }
  }

  lemma {:induction false} StripRightPadded(k: Blanks, v: string, post: string)
    requires AllBlank(k, post) && v != [] && !IsBlank(k, v[|v| - 1])
    ensures StripRight(k, v + post) == v
    decreases |post|
  {
    var w := v + post;
    if post == [] {
      assert w == v;
    } else {
      var shorter := post[..|post| - 1];
      assert w[|w| - 1] == post[|post| - 1] && IsBlank(k, w[|w| - 1]);
      assert w[..|w| - 1] == v + shorter;
      assert AllBlank(k, shorter) by {
        forall i | 0 <= i < |shorter|
          ensures IsBlank(k, shorter[i])
        {
          assert shorter[i] == post[i];
        }
      }
      StripRightPadded(k, v, shorter);
      assert StripRight(k, w) == StripRight(k, w[..|w| - 1]);
    }
  }

  /** Stripping twice strips no more than once. */
  lemma StripIdempotent(k: Blanks, s: string)
    ensures Strip(k, Strip(k, s)) == Strip(k, s)
  {
  }

  function StripLeft(k: Blanks, s: string): (r: string)
    ensures |r| <= |s| && r == s[|s| - |r|..]
    ensures r != [] ==> !IsBlank(k, r[0])
    ensures forall i | 0 <= i < |s| - |r| :: IsBlank(k, s[i])
  {
    if s != [] && IsBlank(k, s[0]) then StripLeft(k, s[1..]) else s
  }

  function StripRight(k: Blanks, s: string): (r: string)
    ensures |r| <= |s| && r == s[..|r|]
    ensures r != [] ==> !IsBlank(k, r[|r| - 1])
    ensures forall i | |r| <= i < |s| :: IsBlank(k, s[i])
  {
    if s != [] && IsBlank(k, s[|s| - 1]) then StripRight(k, s[..|s| - 1]) else s
  }

  /** `s.replace(",", ".")`. */
  function ReplaceCommas(s: string): (r: string)
    ensures |r| == |s|
    ensures forall i | 0 <= i < |s| :: r[i] == (if s[i] == ',' then '.' else s[i])
  {
    if s == [] then [] else [if s[0] == ',' then '.' else s[0]] + ReplaceCommas(s[1..])
  }

  /** Replacing commas a second time changes nothing. */
  lemma ReplaceCommasTwice(s: string)
    ensures ReplaceCommas(ReplaceCommas(s)) == ReplaceCommas(s)
  {
    var m := ReplaceCommas(s);
    forall i | 0 <= i < |m|
      ensures ReplaceCommas(m)[i] == m[i]
    {
    }
  }

  /** Maximal run of digits starting at `i`: the end of what a greedy `\d*` consumes. */
  function DigitEnd(s: string, i: nat): (e: nat)
    requires i <= |s|
    ensures i <= e <= |s|
    ensures forall k | i <= k < e :: IsDigit(s[k])
    ensures e == |s| || !IsDigit(s[e])
    decreases |s| - i
  {
    if i < |s| && IsDigit(s[i]) then DigitEnd(s, i + 1) else i
  }

  /** Maximal run of whitespace starting at `i`: the end of what a greedy `\s*` consumes. */
  function SpaceEnd(s: string, i: nat): (e: nat)
    requires i <= |s|
    ensures i <= e <= |s|
    ensures forall k | i <= k < e :: IsSpace(s[k])
    ensures e == |s| || !IsSpace(s[e])
    decreases |s| - i
  {
    if i < |s| && IsSpace(s[i]) then SpaceEnd(s, i + 1) else i
  }

  /** A digit run is determined by where it stops. */
  lemma {:induction false} DigitEndAt(s: string, i: nat, e: nat)
    requires i <= e <= |s|
    requires forall k | i <= k < e :: IsDigit(s[k])
    requires e == |s| || !IsDigit(s[e])
    ensures DigitEnd(s, i) == e
    decreases e - i
  {
    if i < e {
      DigitEndAt(s, i + 1, e);
    }
  }

  /** A whitespace run is determined by where it stops. */
  lemma {:induction false} SpaceEndAt(s: string, i: nat, e: nat)
    requires i <= e <= |s|
    requires forall k | i <= k < e :: IsSpace(s[k])
    requires e == |s| || !IsSpace(s[e])
    ensures SpaceEnd(s, i) == e
    decreases e - i
  {
    if i < e {
      SpaceEndAt(s, i + 1, e);
    }
  }
}
