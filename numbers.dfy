/** Decimal numerals and the conversions the script applies to them:
    Python's `float(str)` and `int(float)`, over exact reals. */
module Numbers {
  import opened Options
  import opened Chars

  predicate AllDigits(s: string) {
    forall i | 0 <= i < |s| :: IsDigit(s[i])
  }

  predicate IsSep(c: char) {
    c == '.' || c == ','
  }

  function DigitValue(c: char): nat
    requires IsDigit(c)
  {
    c as int - '0' as int
  }

  function DigitChar(d: nat): (c: char)
    requires d < 10
    ensures IsDigit(c) && DigitValue(c) == d
  {
    ('0' as int + d) as char
  }

  function Pow10(n: nat): (p: nat)
    ensures p >= 1
  {
    if n == 0 then 1 else 10 * Pow10(n - 1)
  }

  /** `int(s)` for a string of decimal digits. */
  function DigitsValue(s: string): (n: nat)
    requires AllDigits(s)
    ensures n < Pow10(|s|)
  {
    if s == [] then 0 else DigitsValue(s[..|s| - 1]) * 10 + DigitValue(s[|s| - 1])
  }

  /** The value of the digits written after a decimal point. */
  function Fraction(d: string): (f: real)
    requires AllDigits(d)
    ensures 0.0 <= f < 1.0
  {
    DivBelowOne(DigitsValue(d) as real, Pow10(|d|) as real);
    DigitsValue(d) as real / Pow10(|d|) as real
  }

  lemma DivBelowOne(a: real, b: real)
    requires 0.0 <= a < b
    ensures 0.0 <= a / b < 1.0
  {
    assert (a / b) * b == a;
  }

  /** The parts of a decimal numeral: sign, digits before the point, digits after it. */
  datatype Decimal = Decimal(negative: bool, whole: string, fraction: string)

  predicate WellFormed(d: Decimal) {
    AllDigits(d.whole) && AllDigits(d.fraction) && |d.whole| + |d.fraction| > 0
  }

  function DecimalValue(d: Decimal): real
    requires WellFormed(d)
  {
    var v := DigitsValue(d.whole) as real + Fraction(d.fraction);
    if d.negative then -v else v
  }

  /** Python's `float(t)` for decimal text: surrounding whitespace, an optional
      sign, digits with at most one decimal point and at least one digit.
      Exponents, digit-group underscores, `inf` and `nan` give `None`. */
  function ParseFloat(t: string): (r: Option<real>)
    ensures AllBlank(FloatBlanks, t) ==> r.None?
  {
    match ParseDecimal(t)
    case None => None
    case Some(d) => Some(DecimalValue(d))
  }

  function ParseDecimal(t: string): (r: Option<Decimal>)
    ensures r.Some? ==> WellFormed(r.value)
  {
    var u := Strip(FloatBlanks, t);
    if u != [] && (u[0] == '+' || u[0] == '-') then
      match ParseUnsigned(u[1..])
      case None => None
      case Some(d) => Some(d.(negative := u[0] == '-'))
    else
      ParseUnsigned(u)
  }

  function ParseUnsigned(b: string): (r: Option<Decimal>)
    ensures r.Some? ==> WellFormed(r.value) && !r.value.negative
  {
    var k := DigitEnd(b, 0);
    if k == |b| then
      if k == 0 then None else Some(Decimal(false, b, ""))
    else if b[k] == '.' && AllDigits(b[k + 1..]) && (k > 0 || k + 1 < |b|) then
      Some(Decimal(false, b[..k], b[k + 1..]))
    else
      None
  }

  /** Python's `int(x)` on a float: truncation toward zero. */
  function Trunc(x: real): (r: int)
    ensures x >= 0.0 ==> 0 <= r && r as real <= x < r as real + 1.0
    ensures x < 0.0 ==> r <= 0 && r as real - 1.0 < x <= r as real
  {
    if x >= 0.0 then x.Floor else -((-x).Floor)
  }

  /** The decimal rendering of a natural number, as `str(n)` writes it. */
  function NatText(n: nat): (s: string)
    ensures |s| > 0 && AllDigits(s)
  {
    if n < 10 then [DigitChar(n)] else NatText(n / 10) + [DigitChar(n % 10)]
  }

  lemma {:induction false} NatTextValue(n: nat)
    ensures DigitsValue(NatText(n)) == n
  {
    if n >= 10 {
      var s := NatText(n);
      var p := NatText(n / 10);
      assert s[..|s| - 1] == p;
      NatTextValue(n / 10);
    }
  }

  /** A number written out in decimal reads back as itself. */
  lemma NatTextParses(n: nat)
    ensures ParseFloat(NatText(n)) == Some(n as real)
  {
    DigitsParse(NatText(n));
    NatTextValue(n);
  }

  /** A run of digits reads as the whole number it writes. */
  lemma DigitsParse(d: string)
    requires d != [] && AllDigits(d)
    ensures ParseFloat(d) == Some(DigitsValue(d) as real)
  {
    StripDigits(d);
    DigitEndAt(d, 0, |d|);
    assert ParseUnsigned(d) == Some(Decimal(false, d, ""));
    assert ParseDecimal(d) == ParseUnsigned(d);
    WholeValue(d);
  }

  lemma StripDigits(s: string)
    requires s != [] && AllDigits(s)
    ensures Strip(FloatBlanks, s) == s
  {
    NotBlank(FloatBlanks, s[0]);
    NotBlank(FloatBlanks, s[|s| - 1]);
  }

  /** Text matched by `\d+[.,]?\d*`. */
  predicate IsNumeral(n: string) {
    var k := DigitEnd(n, 0);
    0 < k && (k == |n| || (IsSep(n[k]) && AllDigits(n[k + 1..])))
  }

  lemma NumeralEnds(n: string)
    requires IsNumeral(n)
    ensures IsDigit(n[0]) && (IsDigit(n[|n| - 1]) || IsSep(n[|n| - 1]))
  {
    var k := DigitEnd(n, 0);
    if k < |n| && k + 1 < |n| {
      assert n[|n| - 1] == n[k + 1..][|n| - k - 2];
    }
  }

  /** The parts `float(n.replace(",", "."))` reads from a numeral. */
  function NumeralParts(n: string): (d: Decimal)
    requires IsNumeral(n)
    ensures WellFormed(d) && !d.negative
  {
    var k := DigitEnd(n, 0);
    Decimal(false, n[..k], if k == |n| then "" else n[k + 1..])
  }

  /** `float(n.replace(",", "."))` never raises on a numeral: it reads the
      digits before the separator and those after it. */
  lemma NumeralParses(n: string)
    requires IsNumeral(n)
    ensures ParseDecimal(ReplaceCommas(n)) == Some(NumeralParts(n))
  {
    var k := DigitEnd(n, 0);
    var m := ReplaceCommas(n);
    CommasKeepDigits(n);
    StripNumeral(n);
    assert ParseDecimal(m) == ParseUnsigned(m);
  }

  lemma CommasKeepDigits(n: string)
    requires IsNumeral(n)
    ensures var k, m := DigitEnd(n, 0), ReplaceCommas(n);
      m[..k] == n[..k] && DigitEnd(m, 0) == k &&
      (k < |n| ==> m[k] == '.' && m[k + 1..] == n[k + 1..])
  {
    var k := DigitEnd(n, 0);
    var m := ReplaceCommas(n);
    CommasPrefix(n, k);
    DigitEndAt(m, 0, k);
    if k < |n| {
      forall p | k + 1 <= p < |n|
        ensures n[p] != ','
      {
        assert n[p] == n[k + 1..][p - k - 1];
      }
      CommasSuffix(n, k + 1);
    }
  }

  /** Before the first comma, replacing commas changes nothing. */
  lemma CommasPrefix(n: string, k: nat)
    requires k <= |n|
    requires forall p | 0 <= p < k :: n[p] != ','
    ensures ReplaceCommas(n)[..k] == n[..k]
  {
    var m := ReplaceCommas(n);
    forall p | 0 <= p < k
      ensures m[..k][p] == n[..k][p]
    {
      assert m[p] == n[p];
    }
  }

  /** After the last comma, replacing commas changes nothing. */
  lemma CommasSuffix(n: string, k: nat)
    requires k <= |n|
    requires forall p | k <= p < |n| :: n[p] != ','
    ensures ReplaceCommas(n)[k..] == n[k..]
  {
    var m := ReplaceCommas(n);
    forall p | 0 <= p < |n| - k
      ensures m[k..][p] == n[k..][p]
    {
      assert m[k + p] == n[k + p];
    }
  }

  lemma StripNumeral(n: string)
    requires IsNumeral(n)
    ensures Strip(FloatBlanks, ReplaceCommas(n)) == ReplaceCommas(n)
  {
    NumeralEnds(n);
    var m := ReplaceCommas(n);
    NotBlank(FloatBlanks, m[0]);
    NotBlank(FloatBlanks, m[|m| - 1]);
  }

  /** The value of a numeral: its whole digits plus its fraction digits. */
  function NumeralValue(n: string): (v: real)
    requires IsNumeral(n)
    ensures v >= 0.0
  {
    DecimalValue(NumeralParts(n))
  }

  /** `float(n.replace(",", "."))` on a numeral gives its value. */
  lemma NumeralIsFloat(n: string)
    requires IsNumeral(n)
    ensures ParseFloat(ReplaceCommas(n)) == Some(NumeralValue(n))
  {
    NumeralParses(n);
  }

  /** A run of digits read as a numeral is the number it writes. */
  lemma DigitsNumeral(d: string)
    requires d != [] && AllDigits(d)
    ensures IsNumeral(d) && NumeralValue(d) == DigitsValue(d) as real
  {
    DigitsParts(d);
    WholeValue(d);
  }

  lemma WholeValue(d: string)
    requires d != [] && AllDigits(d)
    ensures DecimalValue(Decimal(false, d, "")) == DigitsValue(d) as real
  {
    assert Fraction("") == 0.0;
  }

  lemma DigitsParts(d: string)
    requires d != [] && AllDigits(d)
    ensures IsNumeral(d) && NumeralParts(d) == Decimal(false, d, "")
  {
    DigitEndAt(d, 0, |d|);
    assert d[..|d|] == d;
  }

  /** `v` under the sign `sign`. */
  function Signed(sign: string, v: real): (r: real)
    ensures r == v || r == -v
  {
    if sign == "-" then -v else v
  }

  /** A numeral with a sign and blanks around it, as `float()` accepts it:
      `float((pre + sign + n + post).replace(",", "."))` is the numeral's
      value, negated under a minus sign. */
  lemma PaddedNumeral(pre: string, sign: string, n: string, post: string)
    requires AllBlank(FloatBlanks, pre) && AllBlank(FloatBlanks, post) && IsNumeral(n)
    requires sign == "" || sign == "+" || sign == "-"
    ensures ParseFloat(ReplaceCommas(pre + sign + n + post)) == Some(Signed(sign, NumeralValue(n)))
  {
    var m, d := ReplaceCommas(n), NumeralParts(n);
    assert ReplaceCommas(pre + sign + n + post) == pre + sign + m + post by {
      CommasAround(pre, sign, n, post);
    }
    assert ParseFloat(pre + sign + m + post) == Some(Signed(sign, DecimalValue(d))) by {
      NumeralUnsigned(n);
      PaddedValue(pre, sign, m, post, d);
    }
    assert NumeralValue(n) == DecimalValue(d);
  }

  lemma PaddedValue(pre: string, sign: string, m: string, post: string, d: Decimal)
    requires AllBlank(FloatBlanks, pre) && AllBlank(FloatBlanks, post)
    requires sign == "" || sign == "+" || sign == "-"
    requires m != [] && IsDigit(m[0]) && !IsBlank(FloatBlanks, m[|m| - 1])
    requires WellFormed(d) && !d.negative && ParseUnsigned(m) == Some(d)
    ensures ParseFloat(pre + sign + m + post) == Some(Signed(sign, DecimalValue(d)))
  {
    PaddedParts(pre, sign, m, post);
    SignedFloat(pre + sign + m + post, d.(negative := sign == "-"));
    SignedValue(d, sign == "-");
  }

  lemma PaddedParts(pre: string, sign: string, m: string, post: string)
    requires AllBlank(FloatBlanks, pre) && AllBlank(FloatBlanks, post)
    requires sign == "" || sign == "+" || sign == "-"
    requires m != [] && IsDigit(m[0]) && !IsBlank(FloatBlanks, m[|m| - 1]) && ParseUnsigned(m).Some?
    ensures ParseDecimal(pre + sign + m + post) == Some(ParseUnsigned(m).value.(negative := sign == "-"))
  {
    SignedEnds(sign, m);
    assert pre + sign + m + post == pre + (sign + m) + post;
    StripPadded(FloatBlanks, pre, sign + m, post);
    SignedParse(pre + (sign + m) + post, sign, m);
  }

  lemma SignedFloat(x: string, d: Decimal)
    requires WellFormed(d) && ParseDecimal(x) == Some(d)
    ensures ParseFloat(x) == Some(DecimalValue(d))
  {
  }

  /** A minus sign negates the value of the digits. */
  lemma SignedValue(d: Decimal, negative: bool)
    requires WellFormed(d) && !d.negative
    ensures DecimalValue(d.(negative := negative)) == if negative then -DecimalValue(d) else DecimalValue(d)
  {
  }

  lemma SignedEnds(sign: string, m: string)
    requires sign == "" || sign == "+" || sign == "-"
    requires m != [] && IsDigit(m[0]) && !IsBlank(FloatBlanks, m[|m| - 1])
    ensures sign + m != [] && !IsBlank(FloatBlanks, (sign + m)[0]) && !IsBlank(FloatBlanks, (sign + m)[|sign + m| - 1])
  {
    assert (sign + m)[|sign + m| - 1] == m[|m| - 1];
    assert (sign + m)[0] == if sign == "" then m[0] else sign[0];
    NotBlank(FloatBlanks, (sign + m)[0]);
  }

  /** `float()` reads an optional sign, then the unsigned part. */
  lemma SignedParse(x: string, sign: string, m: string)
    requires sign == "" || sign == "+" || sign == "-"
    requires m != [] && IsDigit(m[0]) && Strip(FloatBlanks, x) == sign + m && ParseUnsigned(m).Some?
    ensures ParseDecimal(x) == Some(ParseUnsigned(m).value.(negative := sign == "-"))
  {
    var u := Strip(FloatBlanks, x);
    if sign == "" {
      assert u == m;
      assert !(u[0] == '+' || u[0] == '-');
    } else {
      assert u[0] == sign[0] && (u[0] == '+' || u[0] == '-');
      assert u[1..] == m;
    }
  }

  lemma CommasAround(pre: string, sign: string, n: string, post: string)
    requires AllBlank(FloatBlanks, pre) && AllBlank(FloatBlanks, post)
    requires sign == "" || sign == "+" || sign == "-"
    ensures ReplaceCommas(pre + sign + n + post) == pre + sign + ReplaceCommas(n) + post
  {
    var l, r := ReplaceCommas(pre + sign + n + post), pre + sign + ReplaceCommas(n) + post;
    var a, b := |pre| + |sign|, |pre| + |sign| + |n|;
    forall i | 0 <= i < |l|
      ensures l[i] == r[i]
    {
      if b <= i {
        assert (pre + sign + n + post)[i] == post[i - b];
      } else if a <= i {
        assert (pre + sign + n + post)[i] == n[i - a];
      } else if |pre| <= i {
        assert (pre + sign + n + post)[i] == sign[i - |pre|];
      } else {
        assert (pre + sign + n + post)[i] == pre[i];
      }
    }
  }

  /** After comma replacement a numeral starts with a digit and is read
      without a sign. */
  lemma NumeralUnsigned(n: string)
    requires IsNumeral(n)
    ensures ReplaceCommas(n) != [] && IsDigit(ReplaceCommas(n)[0])
    ensures !IsBlank(FloatBlanks, ReplaceCommas(n)[0]) && !IsBlank(FloatBlanks, ReplaceCommas(n)[|n| - 1])
    ensures ParseUnsigned(ReplaceCommas(n)) == Some(NumeralParts(n))
  {
    var m := ReplaceCommas(n);
    NumeralEnds(n);
    assert m[0] == n[0];
    NotBlank(FloatBlanks, m[0]);
    NotBlank(FloatBlanks, m[|n| - 1]);
    StripNumeral(n);
    NumeralParses(n);
    UnsignedDecimal(m);
  }

  /** Text starting with a digit and without blanks at its ends has no sign to read. */
  lemma UnsignedDecimal(m: string)
    requires m != [] && IsDigit(m[0]) && Strip(FloatBlanks, m) == m
    ensures ParseDecimal(m) == ParseUnsigned(m)
  {
  }

  /** A digit followed by a character that is no digit, no point and no
      blank of `float()` makes `float()` raise. */
  lemma DigitThenStray(t: string)
    requires |t| == 2 && IsDigit(t[0]) && !IsDigit(t[1]) && t[1] != '.' && !IsBlank(FloatBlanks, t[1])
    ensures ParseFloat(t).None?
  {
    NotBlank(FloatBlanks, t[0]);
    assert Strip(FloatBlanks, t) == t;
    DigitEndAt(t, 0, 1);
  }

  /** `float("5\x1c")` raises: the separator U+001C is no blank for `float()`. */
  lemma SeparatorUnreadable()
    ensures ParseFloat("5" + ['\U{1C}']).None?
  {
    var t := "5" + ['\U{1C}'];
    assert t[0] == '5' && t[1] == '\U{1C}' && |t| == 2;
    DigitThenStray(t);
  }
}
