/** Worked descriptions for `extrair_peso`, each proved step by step
    through the scanner model. */
module QuantityExamples {
  import opened Options
  import opened Chars
  import opened Numbers
  import opened Quantity
  import opened QuantityFacts

  /** An answer from line 42, wherever its block starts, is the block and
      its folded total. */
  lemma MultiAnswer(s: string, p: nat, e: nat, u: Unit, nums: seq<real>)
    requires p < e <= |s|
    requires FirstHit(s) == Some(MultiHit(p, e, u))
    requires BlockNumbers(s[p..e]) == nums
    ensures Extract(Some(s)) == Found(s[p..e], Trunc(MultiTotal(nums, u)))
  {
  }

  // ---- "1,5KG": a comma is a decimal point, and kg counts thousands

  lemma OneAndAHalfParts()
    ensures IsNumeral("1,5") && NumeralParts("1,5") == Decimal(false, "1", "5")
  {
    DigitEndAt("1,5", 0, 1);
  }

  lemma OneAndAHalfValue()
    ensures DecimalValue(Decimal(false, "1", "5")) == 1.5
  {
    assert DigitsValue("1") == 1;
    assert DigitsValue("5") == 5;
    assert Fraction("5") == 0.5;
  }

  lemma OneAndAHalf()
    ensures IsNumeral("1,5") && NumeralValue("1,5") == 1.5
  {
    OneAndAHalfParts();
    OneAndAHalfValue();
  }

  /** `1,5KG` is read as 1500 grams. */
  lemma CommaDecimalKilo()
    ensures Extract(Some("1,5KG")) == Found("1,5KG", 1500)
  {
    OneAndAHalf();
    assert Spells("KG", Kg);
    BareQuantity("1,5", "KG", Kg);
    assert "1,5" + "KG" == "1,5KG";
    assert Trunc(1500.0) == 1500;
  }

  // ---- "2X3X200G": every number before the last is a multiplier

  lemma TwoByThreeFirst()
    ensures FactorStep("2X3X200G", 0) == Some(2)
  {
    assert DigitEnd("2X3X200G", 0) == 1;
    CrossIsFactor("2X3X200G", 0);
  }

  lemma TwoByThreeSecond()
    ensures FactorStep("2X3X200G", 2) == Some(4)
  {
    assert DigitEnd("2X3X200G", 2) == 3;
    CrossIsFactor("2X3X200G", 2);
  }

  lemma TwoByThreeNoThird()
    ensures FactorStep("2X3X200G", 4) == None
  {
    assert DigitEnd("2X3X200G", 4) == 7;
    assert SpaceEnd("2X3X200G", 7) == 7;
  }

  lemma TwoByThreeTail()
    ensures TailAt("2X3X200G", 4, false) == Some(Tail(7, G, 8))
  {
    assert NumberEnd("2X3X200G", 4) == 7;
    assert SpaceEnd("2X3X200G", 7) == 7;
    GramUnbounded("2X3X200G", 7);
  }

  lemma TwoByThreeHit()
    ensures FirstHit("2X3X200G") == Some(MultiHit(0, 8, G))
  {
    TwoByThreeFirst();
    TwoByThreeSecond();
    TwoByThreeNoThird();
    TwoByThreeTail();
    assert MultiFrom("2X3X200G", 4) == Some(Tail(7, G, 8));
    assert MultiFrom("2X3X200G", 2) == Some(Tail(7, G, 8));
    assert MultiAt("2X3X200G", 0) == Some(MultiHit(0, 8, G));
    assert SearchFrom(Multi, "2X3X200G", 0) == Some(MultiHit(0, 8, G));
  }

  lemma TwoHundredLast()
    ensures NumeralValues(FindNumerals("2X3X200G", 4)) == [200.0]
  {
    var s := "2X3X200G";
    assert NumberEnd(s, 4) == 7;
    assert s[4..7] == "200";
    assert FindNumerals(s, 7) == [];
    TwoHundred();
    WholeNumeral("200", 200);
    ValuesAt(s, 4);
  }

  lemma ThreeFirst()
    ensures NumeralValues(FindNumerals("2X3X200G", 2)) == [3.0] + NumeralValues(FindNumerals("2X3X200G", 3))
  {
    var s := "2X3X200G";
    assert NumberEnd(s, 2) == 3;
    assert s[2..3] == "3";
    WholeNumeral("3", 3);
    ValuesAt(s, 2);
  }

  lemma ThreeThenTwoHundred()
    ensures NumeralValues(FindNumerals("2X3X200G", 2)) == [3.0, 200.0]
  {
    ThreeFirst();
    ValuesSkip("2X3X200G", 3);
    TwoHundredLast();
  }

  lemma TwoByThreeNumbers()
    ensures BlockNumbers("2X3X200G") == [2.0, 3.0, 200.0]
  {
    var s := "2X3X200G";
    ThreeThenTwoHundred();
    assert NumberEnd(s, 0) == 1;
    assert s[0..1] == "2";
    ValuesSkip(s, 1);
    WholeNumeral("2", 2);
    ValuesAt(s, 0);
  }

  /** A numeral at `i` comes first among the numbers read from `i` on. */
  lemma ValuesAt(t: string, i: nat)
    requires i < |t| && IsDigit(t[i])
    ensures IsNumeral(t[i..NumberEnd(t, i)])
    ensures NumeralValues(FindNumerals(t, i))
      == [NumeralValue(t[i..NumberEnd(t, i)])] + NumeralValues(FindNumerals(t, NumberEnd(t, i)))
  {
    NumeralSlice(t, i);
    var rest := FindNumerals(t, NumberEnd(t, i));
    NumeralValuesCons(t[i..NumberEnd(t, i)], rest);
  }

  /** A character that is not a digit adds no number. */
  lemma ValuesSkip(t: string, i: nat)
    requires i < |t| && !IsDigit(t[i])
    ensures NumeralValues(FindNumerals(t, i)) == NumeralValues(FindNumerals(t, i + 1))
  {
  }

  lemma WholeNumeral(d: string, n: nat)
    requires d != [] && AllDigits(d) && DigitsValue(d) == n
    ensures IsNumeral(d) && NumeralValue(d) == n as real
  {
    DigitsNumeral(d);
  }

  lemma TwoHundred()
    ensures AllDigits("200") && DigitsValue("200") == 200
  {
    assert "200"[..2] == "20";
    assert "20"[..1] == "2";
  }

  lemma Twelve()
    ensures AllDigits("12") && DigitsValue("12") == 12
  {
    assert "12"[..1] == "1";
  }

  lemma ChainTotal()
    ensures MultiTotal([2.0, 3.0, 200.0], G) == 1200.0
  {
    assert [2.0, 3.0, 200.0][..2] == [2.0, 3.0];
    assert [2.0, 3.0][..1] == [2.0];
    assert TimesAll(200.0, [2.0]) == 400.0;
  }

  /** `2X3X200G` is read as 2 × 3 × 200 = 1200 grams. */
  lemma MultiplierChain()
    ensures Extract(Some("2X3X200G")) == Found("2X3X200G", 1200)
  {
    TwoByThreeHit();
    TwoByThreeNumbers();
    assert "2X3X200G"[0..8] == "2X3X200G";
    MultiAnswer("2X3X200G", 0, 8, G, [2.0, 3.0, 200.0]);
    ChainTotal();
    assert Trunc(1200.0) == 1200;
  }

  // ---- "12 CX X 1KG": a pack token between the count and the `X`

  lemma BoxStepsFirst()
    ensures FactorStep("12 CX X 1KG", 0) == Some(8)
  {
    var s := "12 CX X 1KG";
    BoxCount();
    BoxCross(s);
    BoxCrate(s);
    FourthToken(s, 3, PackTokens);
  }

  lemma BoxCount()
    ensures DigitEnd("12 CX X 1KG", 0) == 2 && SpaceEnd("12 CX X 1KG", 2) == 3
  {
    assert DigitEnd("12 CX X 1KG", 1) == 2;
  }

  lemma BoxCross(s: string)
    requires s == "12 CX X 1KG"
    ensures CrossAfter(s, 5) == Some(8)
  {
    assert SpaceEnd(s, 5) == 6;
    assert SpaceEnd(s, 7) == 8;
  }

  /** At 3 of the box description stands `cx`, the fourth pack token. */
  lemma BoxCrate(s: string)
    requires s == "12 CX X 1KG"
    ensures !LiteralAt(s, 3, PackTokens[0]) && !LiteralAt(s, 3, PackTokens[1])
    ensures !LiteralAt(s, 3, PackTokens[2]) && LiteralAt(s, 3, PackTokens[3]) && |PackTokens[3]| == 2
  {
    LiteralFirst(s, 3, PackTokens[0]);
    LiteralFirst(s, 3, PackTokens[1]);
    assert !LiteralAt(s, 3, PackTokens[2]) by { assert Lower(s[3 + 1]) != PackTokens[2][1]; }
  }

  /** The first three tokens do not occur at `w` and the fourth does,
      followed by an `x`. */
  lemma FourthToken(s: string, w: nat, toks: seq<string>)
    requires w <= |s| && |toks| >= 4
    requires !LiteralAt(s, w, toks[0]) && !LiteralAt(s, w, toks[1]) && !LiteralAt(s, w, toks[2])
    requires LiteralAt(s, w, toks[3]) && CrossAfter(s, w + |toks[3]|).Some?
    ensures TokenThenCross(s, w, toks) == CrossAfter(s, w + |toks[3]|)
  {
    var t1 := toks[1..];
    var t2 := t1[1..];
    var t3 := t2[1..];
    assert t1[0] == toks[1] && t2[0] == toks[2] && t3[0] == toks[3];
    assert TokenThenCross(s, w, toks) == TokenThenCross(s, w, t1);
    assert TokenThenCross(s, w, t1) == TokenThenCross(s, w, t2);
    assert TokenThenCross(s, w, t2) == TokenThenCross(s, w, t3);
  }

  lemma BoxStepsRest()
    ensures FactorStep("12 CX X 1KG", 8) == None
    ensures TailAt("12 CX X 1KG", 8, false) == Some(Tail(9, Kg, 11))
  {
    var s := "12 CX X 1KG";
    assert DigitEnd(s, 8) == 9;
    assert SpaceEnd(s, 9) == 9;
    assert NumberEnd(s, 8) == 9;
    NoTokenAt(s, 9, PackTokens);
    assert LiteralAt("12 CX X 1KG", 9, UnitText(Kg));
    KiloUnbounded("12 CX X 1KG", 9);
  }

  /** No pack token and no `x` at `w`. */
  lemma {:induction false} NoTokenAt(s: string, w: nat, toks: seq<string>)
    requires w < |s| && Lower(s[w]) != 'x' && !IsSpace(s[w])
    requires forall k | 0 <= k < |toks| :: |toks[k]| > 0 && toks[k][0] != Lower(s[w])
    ensures TokenThenCross(s, w, toks).None?
    decreases |toks|
  {
    if toks != [] {
      LiteralFirst(s, w, toks[0]);
      NoTokenAt(s, w, toks[1..]);
    } else {
      SpaceEndAt(s, w, w);
    }
  }

  lemma BoxHit()
    ensures FirstHit("12 CX X 1KG") == Some(MultiHit(0, 11, Kg))
  {
    BoxStepsFirst();
    BoxStepsRest();
    assert MultiFrom("12 CX X 1KG", 8) == Some(Tail(9, Kg, 11));
    assert MultiAt("12 CX X 1KG", 0) == Some(MultiHit(0, 11, Kg));
    assert SearchFrom(Multi, "12 CX X 1KG", 0) == Some(MultiHit(0, 11, Kg));
  }

  lemma BoxLast()
    ensures NumeralValues(FindNumerals("12 CX X 1KG", 8)) == [1.0]
  {
    var s := "12 CX X 1KG";
    assert NumberEnd(s, 8) == 9;
    assert s[8..9] == "1";
    assert FindNumerals(s, 9) == [];
    WholeNumeral("1", 1);
    ValuesAt(s, 8);
  }

  lemma BoxGap()
    ensures NumeralValues(FindNumerals("12 CX X 1KG", 2)) == [1.0]
  {
    var s := "12 CX X 1KG";
    BoxLast();
    ValuesSkip(s, 7);
    ValuesSkip(s, 6);
    ValuesSkip(s, 5);
    ValuesSkip(s, 4);
    ValuesSkip(s, 3);
    ValuesSkip(s, 2);
  }

  lemma BoxTwelve()
    ensures NumberEnd("12 CX X 1KG", 0) == 2
    ensures IsNumeral("12 CX X 1KG"[0..2]) && NumeralValue("12 CX X 1KG"[0..2]) == 12.0
  {
    assert NumberEnd("12 CX X 1KG", 0) == 2;
    assert "12 CX X 1KG"[0..2] == "12";
    Twelve();
    WholeNumeral("12", 12);
  }

  lemma BoxNumbers()
    ensures BlockNumbers("12 CX X 1KG") == [12.0, 1.0]
  {
    BoxTwelve();
    BoxGap();
    LeadingValue("12 CX X 1KG", 12.0, [1.0]);
  }

  /** `12 CX X 1KG` is read as twelve boxes of a kilogram: 12000 grams. */
  lemma PackToken()
    ensures Extract(Some("12 CX X 1KG")) == Found("12 CX X 1KG", 12000)
  {
    BoxHit();
    BoxNumbers();
    assert "12 CX X 1KG"[0..11] == "12 CX X 1KG";
    MultiAnswer("12 CX X 1KG", 0, 11, Kg, [12.0, 1.0]);
    assert [12.0, 1.0][..1] == [12.0];
    assert TimesAll(1000.0, [12.0]) == 12000.0;
    assert Trunc(12000.0) == 12000;
  }

  // ---- "6X1LATAS": line 42 has no `\b` after the unit

  lemma CansFirst()
    ensures FactorStep("6X1LATAS", 0) == Some(2)
  {
    assert DigitEnd("6X1LATAS", 0) == 1;
    CrossIsFactor("6X1LATAS", 0);
  }

  lemma CansStop()
    ensures FactorStep("6X1LATAS", 2) == None
  {
    var s := "6X1LATAS";
    assert DigitEnd(s, 2) == 3;
    assert SpaceEnd(s, 3) == 3;
    assert NumberEnd(s, 2) == 3;
    NoTokenAt(s, 3, PackTokens);
  }

  lemma CansUnit()
    ensures UnitFrom("6X1LATAS", 3, false, UnitOrder) == Some((L, 4))
  {
    LitreUnbounded("6X1LATAS", 3);
  }

  lemma CansTail()
    ensures TailAt("6X1LATAS", 2, false) == Some(Tail(3, L, 4))
  {
    var s := "6X1LATAS";
    assert DigitEnd(s, 2) == 3;
    assert NumberEnd(s, 2) == 3;
    assert SpaceEnd(s, 3) == 3;
    CansUnit();
  }

  lemma CansHit()
    ensures FirstHit("6X1LATAS") == Some(MultiHit(0, 4, L))
  {
    var s := "6X1LATAS";
    CansFirst();
    CansStop();
    CansTail();
    assert MultiFrom(s, 2) == Some(Tail(3, L, 4));
    assert MultiAt(s, 0) == Some(MultiHit(0, 4, L));
    assert SearchFrom(Multi, s, 0) == Some(MultiHit(0, 4, L));
  }

  lemma CansLast()
    ensures NumeralValues(FindNumerals("6X1L", 2)) == [1.0]
  {
    var s := "6X1L";
    assert NumberEnd(s, 2) == 3;
    assert s[2..3] == "1";
    assert FindNumerals(s, 3) == [];
    WholeNumeral("1", 1);
    ValuesAt(s, 2);
  }

  lemma CansAfterFirst()
    ensures NumeralValues(FindNumerals("6X1L", 1)) == [1.0]
  {
    CansLast();
    ValuesSkip("6X1L", 1);
  }

  lemma CansNumbers()
    ensures BlockNumbers("6X1L") == [6.0, 1.0]
  {
    var s := "6X1L";
    assert NumberEnd(s, 0) == 1;
    assert s[0..1] == "6";
    WholeNumeral("6", 6);
    CansAfterFirst();
    LeadingValue(s, 6.0, [1.0]);
  }

  /** The numbers of a block are its first numeral's value, then the rest. */
  lemma LeadingValue(t: string, x: real, rest: seq<real>)
    requires |t| > 0 && IsDigit(t[0])
    requires IsNumeral(t[0..NumberEnd(t, 0)]) && NumeralValue(t[0..NumberEnd(t, 0)]) == x
    requires NumeralValues(FindNumerals(t, NumberEnd(t, 0))) == rest
    ensures BlockNumbers(t) == [x] + rest
  {
    ValuesAt(t, 0);
  }

  /** `6X1LATAS` ("six one-litre cans") matches `6X1L` although the `L`
      is followed by more letters: 6000 millilitres. */
  lemma UnitInsideWord()
    ensures Extract(Some("6X1LATAS")) == Found("6X1L", 6000)
  {
    var s := "6X1LATAS";
    CansHit();
    assert s[0..4] == "6X1L";
    CansNumbers();
    MultiAnswer(s, 0, 4, L, [6.0, 1.0]);
    CansTotal();
  }

  lemma CansTotal()
    ensures Trunc(MultiTotal([6.0, 1.0], L)) == 6000
  {
    assert [6.0, 1.0][..1] == [6.0];
    assert TimesAll(1000.0, [6.0]) == 6000.0;
  }

  // ---- "500GRAMAS": line 75 needs `\b` after the unit

  lemma GramasUnit()
    ensures UnitFrom("500GRAMAS", 3, true, UnitOrder) == None
  {
    var s := "500GRAMAS";
    MissByLetter(s, 3, true, Kg);
    assert !BoundaryAt(s, 4) && !BoundaryAt(s, 5);
    assert !Fits(s, 3, true, G) && !Fits(s, 3, true, Gr);
    MissByLetter(s, 3, true, Ml);
    MissByLetter(s, 3, true, L);
    MissByLetter(s, 3, true, Lt);
    NoUnitFits(s, 3, true);
  }

  lemma GramasNumber(p: nat)
    requires p < 3
    ensures NumberEnd("500GRAMAS", p) == 3 && SpaceEnd("500GRAMAS", 3) == 3
  {
    assert DigitEnd("500GRAMAS", p) == 3;
  }

  lemma NoBoundedUnit(p: nat)
    requires p <= 9
    ensures BareAt("500GRAMAS", p).None?
  {
    if p < 3 {
      GramasNumber(p);
      GramasUnit();
    } else if p < 9 {
      assert !IsDigit("500GRAMAS"[p]);
    }
  }

  /** `500GRAMAS` gives `(None, None)`: `G` and `GR` are followed by more
      letters, so the `\b` of line 75 fails, and there is no `x` for
      line 42. */
  lemma UnitNeedsBoundary()
    ensures Extract(Some("500GRAMAS")) == NoMatch
  {
    var s := "500GRAMAS";
    forall k | 0 <= k < |s|
      ensures Lower(s[k]) != 'x'
    {
    }
    forall p | 0 <= p <= |s|
      ensures MultiAt(s, p).None? && BareAt(s, p).None?
    {
      NoCrossNoFactor(s, p);
      NoBoundedUnit(p);
    }
    NoMatchIff(s);
  }
}
