/** The content reconciler `comparar_contenido`: the grams read from the
    description against the content the sheet declares. */
module Content {
  import opened Options
  import opened Chars
  import opened Numbers
  import opened Cells

  /** What `float(str(contenido).replace(",", "."))` gives for a declared
      content cell, or `None` where it raises. A number prints as text that
      reads back as itself, so a `Num` cell gives its own value. */
  function DeclaredValue(c: Cell): (r: Option<real>)
    ensures c.Blank? ==> r.None?
    ensures c.Num? ==> r == Some(c.x)
  {
    match c
    case Blank => None
    case Num(x) => Some(x)
    case Text(t) => ParseFloat(ReplaceCommas(t))
  }

  function Abs(x: real): (r: real)
    ensures r >= 0.0 && (r == x || r == -x)
  {
    if x < 0.0 then -x else x
  }

  /** `comparar_contenido(qtd_embalagem_gramas, contenido)`: `grams` is the
      extracted count (`None` when nothing was extracted). It never raises:
      a missing side or an unreadable declared text is a problem, and
      otherwise the two must differ by less than one. */
  function Reconcile(grams: Option<int>, declared: Cell): (r: Label)
    ensures r == Ok || r == Problema
    ensures grams.None? || declared.Blank? ==> r == Problema
    ensures declared.Text? && ParseFloat(ReplaceCommas(declared.s)).None? ==> r == Problema
    ensures grams.Some? && DeclaredValue(declared).Some? ==>
      (r == Ok <==> Abs(grams.value as real - DeclaredValue(declared).value) < 1.0)
  {
    if grams.None? || declared.Blank? then
      Problema
    else
      match DeclaredValue(declared)
      case None => Problema
      case Some(v) => if Abs(grams.value as real - v) < 1.0 then Ok else Problema
  }

  /** Against a declared number, the verdict is OK exactly when the number
      lies strictly within one of the extracted grams. */
  lemma ReconcileWithin(g: int, x: real)
    ensures Reconcile(Some(g), Num(x)) == Ok <==> g as real - 1.0 < x < g as real + 1.0
  {
  }

  /** Against a declared whole number the tolerance admits no slack: OK
      exactly when the two are equal. */
  lemma ReconcileWhole(g: int, k: int)
    ensures Reconcile(Some(g), Num(k as real)) == Ok <==> g == k
  {
    ReconcileWithin(g, k as real);
  }

  /** Replacing every comma by a point changes nothing: a comma and a point
      are read alike. */
  lemma {:induction false} CommaOrPoint(g: Option<int>, t: string)
    ensures Reconcile(g, Text(ReplaceCommas(t))) == Reconcile(g, Text(t))
  {
    ReplaceCommasTwice(t);
    SameDeclared(g, Text(ReplaceCommas(t)), Text(t));
  }

  /** The verdict depends on the declared cell only through the value
      `float()` reads from it. */
  lemma SameDeclared(g: Option<int>, a: Cell, b: Cell)
    requires !a.Blank? && !b.Blank? && DeclaredValue(a) == DeclaredValue(b)
    ensures Reconcile(g, a) == Reconcile(g, b)
  {
  }

  /** A whole number written out as text reconciles with itself. */
  lemma WrittenOut(n: nat)
    ensures Reconcile(Some(n), Text(NatText(n))) == Ok
  {
    var t := NatText(n);
    assert ReplaceCommas(t) == t by {
      assert forall i | 0 <= i < |t| :: IsDigit(t[i]);
    }
    NatTextParses(n);
    SameDeclared(Some(n), Text(t), Num(n as real));
    ReconcileWhole(n, n);
  }

  /** A declared numeral reconciles exactly as the number it writes. */
  lemma TextAsNumber(g: Option<int>, t: string)
    requires IsNumeral(t)
    ensures Reconcile(g, Text(t)) == Reconcile(g, Num(NumeralValue(t)))
  {
    NumeralIsFloat(t);
    SameDeclared(g, Text(t), Num(NumeralValue(t)));
  }

  /** A declared numeral with a sign and blanks around it, such as
      `" -0,5 "` or `"+500"`, reconciles as the signed number it writes. */
  lemma PaddedAsNumber(g: Option<int>, pre: string, sign: string, n: string, post: string)
    requires AllBlank(FloatBlanks, pre) && AllBlank(FloatBlanks, post) && IsNumeral(n)
    requires sign == "" || sign == "+" || sign == "-"
    ensures Reconcile(g, Text(pre + sign + n + post)) ==
      Reconcile(g, Num(Signed(sign, NumeralValue(n))))
  {
    PaddedNumeral(pre, sign, n, post);
    SameDeclared(g, Text(pre + sign + n + post), Num(Signed(sign, NumeralValue(n))));
  }

  /** `(500, "500")`: OK. */
  lemma FiveHundred()
    ensures Reconcile(Some(500), Text("500")) == Ok
  {
    DigitsFiveHundred();
    DigitsNumeral("500");
    TextAsNumber(Some(500), "500");
    ReconcileWhole(500, 500);
  }

  lemma DigitsFiveHundred()
    ensures AllDigits("500") && DigitsValue("500") == 500
  {
    assert "500"[..2] == "50";
    assert "50"[..1] == "5";
  }

  lemma FiveHundredOneAndAHalfParts()
    ensures IsNumeral("501,5") && NumeralParts("501,5") == Decimal(false, "501", "5")
  {
    DigitEndAt("501,5", 0, 3);
    assert "501,5"[..3] == "501";
    assert "501,5"[4..] == "5";
  }

  lemma FiveHundredOneAndAHalfValue()
    ensures DecimalValue(Decimal(false, "501", "5")) == 501.5
  {
    assert "501"[..2] == "50";
    assert "50"[..1] == "5";
    assert DigitsValue("501") == 501;
    assert Fraction("5") == 0.5;
  }

  /** `(500, "501,5")`: PROBLEMA, the comma being read as a decimal point
      and 1.5 not being less than one. */
  lemma FiveHundredOneAndAHalf()
    ensures Reconcile(Some(500), Text("501,5")) == Problema
  {
    FiveHundredOneAndAHalfParts();
    FiveHundredOneAndAHalfValue();
    TextAsNumber(Some(500), "501,5");
  }

  /** `(5, "5\x1c")`: PROBLEMA. `str.strip()` would drop the separator
      U+001C, but `float()` keeps it and raises. */
  lemma SeparatorAfterNumber()
    ensures Strip(TextBlanks, "5" + ['\U{1C}']) == "5"
    ensures Reconcile(Some(5), Text("5" + ['\U{1C}'])) == Problema
  {
    var t := "5" + ['\U{1C}'];
    assert t[0] == '5' && t[1] == '\U{1C}' && |t| == 2;
    assert Strip(TextBlanks, t) == "5" by {
      assert [] + "5" + ['\U{1C}'] == t;
      StripPadded(TextBlanks, [], "5", ['\U{1C}']);
    }
    assert ParseFloat(ReplaceCommas(t)).None? by {
      assert ReplaceCommas(t) == t;
      SeparatorUnreadable();
    }
  }
}
