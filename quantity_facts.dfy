/** What `extrair_peso` does, proved about the scanner model: which of its
    four patterns can ever answer, which units the first pattern can
    report, when it gives `(None, None)`, and what it reads from a numeral
    written next to a unit. */
module QuantityFacts {
  import opened Options
  import opened Chars
  import opened Numbers
  import opened Quantity

  /** A pack token never starts with an `x`, so at an `x` every token fails
      and the empty alternative is taken. */
  lemma {:induction false} TokensThenX(s: string, w: nat, toks: seq<string>)
    requires w < |s| && Lower(s[w]) == 'x'
    requires forall k | 0 <= k < |toks| :: |toks[k]| > 0 && toks[k][0] != 'x'
    ensures TokenThenCross(s, w, toks) == CrossAfter(s, w)
    decreases |toks|
  {
    if toks != [] {
      TokensThenX(s, w, toks[1..]);
    }
  }

  /** `\d+\s*[xX]\s*` read as one round of the repetition of line 42. */
  lemma CrossIsFactor(s: string, p: nat)
    requires p < |s| && IsDigit(s[p])
    requires CrossAfter(s, DigitEnd(s, p)).Some?
    ensures FactorStep(s, p) == CrossAfter(s, DigitEnd(s, p))
  {
    var w := SpaceEnd(s, DigitEnd(s, p));
    SpaceEndAt(s, w, w);
    TokensThenX(s, w, PackTokens);
  }

  /** A unit followed by `\b` is in particular a unit. */
  lemma {:induction false} BoundedUnitUnbounded(s: string, i: nat, alts: seq<Unit>)
    requires i <= |s|
    ensures UnitFrom(s, i, true, alts).Some? ==> UnitFrom(s, i, false, alts).Some?
    decreases |alts|
  {
    if alts != [] && !LiteralAt(s, i, UnitText(alts[0])) {
      BoundedUnitUnbounded(s, i, alts[1..]);
    }
  }

  lemma TailUnbounded(s: string, q: nat)
    requires q <= |s|
    ensures TailAt(s, q, true).Some? ==> TailAt(s, q, false).Some?
  {
    if q < |s| && IsDigit(s[q]) {
      BoundedUnitUnbounded(s, SpaceEnd(s, NumberEnd(s, q)), UnitOrder);
    }
  }

  /** One more round of the repetition keeps a successful match. */
  lemma MultiFromStep(s: string, i: nat)
    requires i <= |s|
    requires FactorStep(s, i).Some? && MultiFrom(s, FactorStep(s, i).value).Some?
    ensures MultiFrom(s, i).Some?
  {
  }

  /** The repetition can always stop where a tail matches. */
  lemma MultiFromTail(s: string, i: nat)
    requires i <= |s|
    requires TailAt(s, i, false).Some?
    ensures MultiFrom(s, i).Some?
  {
  }

  lemma TripleShape(s: string, p: nat)
    requires p <= |s| && TripleAt(s, p).Some?
    ensures p < |s| && IsDigit(s[p]) && CrossAfter(s, DigitEnd(s, p)).Some?
    ensures var q2 := CrossAfter(s, DigitEnd(s, p)).value;
      q2 < |s| && IsDigit(s[q2]) && CrossAfter(s, DigitEnd(s, q2)).Some? &&
      TailAt(s, CrossAfter(s, DigitEnd(s, q2)).value, true).Some?
  {
  }

  lemma DoubleShape(s: string, p: nat)
    requires p <= |s| && DoubleAt(s, p).Some?
    ensures p < |s| && IsDigit(s[p]) && CrossAfter(s, DigitEnd(s, p)).Some?
    ensures TailAt(s, CrossAfter(s, DigitEnd(s, p)).value, true).Some?
  {
  }

  /** Whatever line 56 matches at `p`, line 42 matches at `p` too. */
  lemma TripleImpliesMulti(s: string, p: nat)
    requires p <= |s|
    ensures TripleAt(s, p).Some? ==> MultiAt(s, p).Some?
  {
    if TripleAt(s, p).Some? {
      TripleShape(s, p);
      var q2 := CrossAfter(s, DigitEnd(s, p)).value;
      var q3 := CrossAfter(s, DigitEnd(s, q2)).value;
      CrossIsFactor(s, p);
      CrossIsFactor(s, q2);
      TailUnbounded(s, q3);
      MultiFromTail(s, q3);
      MultiFromStep(s, q2);
    }
  }

  /** Whatever line 66 matches at `p`, line 42 matches at `p` too. */
  lemma DoubleImpliesMulti(s: string, p: nat)
    requires p <= |s|
    ensures DoubleAt(s, p).Some? ==> MultiAt(s, p).Some?
  {
    if DoubleAt(s, p).Some? {
      DoubleShape(s, p);
      var q2 := CrossAfter(s, DigitEnd(s, p)).value;
      CrossIsFactor(s, p);
      TailUnbounded(s, q2);
      MultiFromTail(s, q2);
    }
  }

  /** Lines 56-73 never decide the result: once the search of line 42
      fails, the searches of lines 56 and 66 fail as well, so the answer
      is the multi block or else the bare numeral of line 75. */
  lemma DeadBranches(s: string)
    ensures SearchFrom(Multi, s, 0).None? ==>
              SearchFrom(Triple, s, 0).None? && SearchFrom(Double, s, 0).None?
    ensures FirstHit(s) ==
              if SearchFrom(Multi, s, 0).Some? then SearchFrom(Multi, s, 0) else SearchFrom(Bare, s, 0)
  {
    if SearchFrom(Multi, s, 0).None? {
      forall p | 0 <= p <= |s|
        ensures TripleAt(s, p).None? && DoubleAt(s, p).None?
      {
        NoneBetweenAt(Multi, s, 0, |s| + 1, p);
        TripleImpliesMulti(s, p);
        DoubleImpliesMulti(s, p);
      }
    }
  }

  /** Every answer the function gives is a multi block or a bare numeral. */
  lemma OnlyMultiOrBare(s: string)
    ensures FirstHit(s).Some? ==> FirstHit(s).value.MultiHit? || FirstHit(s).value.BareHit?
  {
    DeadBranches(s);
  }

  /** Without `\b`, `g` is tried before `gr` and `l` before `lt`, so the
      unit of line 42 is never `gr` nor `lt`. */
  lemma UnboundedUnit(s: string, i: nat)
    requires i <= |s|
    ensures UnitFrom(s, i, false, UnitOrder).Some? ==>
              UnitFrom(s, i, false, UnitOrder).value.0 in {Kg, G, Ml, L}
  {
    UnitChain(s, i, false);
    if LiteralAt(s, i, UnitText(Gr)) {
      LiteralPrefix(s, i, UnitText(Gr), 1);
      assert UnitText(Gr)[..1] == UnitText(G);
    }
    if LiteralAt(s, i, UnitText(Lt)) {
      LiteralPrefix(s, i, UnitText(Lt), 1);
      assert UnitText(Lt)[..1] == UnitText(L);
    }
  }

  /** A literal that occurs at `i` has each of its prefixes occur there. */
  lemma LiteralPrefix(s: string, i: nat, lit: string, n: nat)
    requires LiteralAt(s, i, lit) && n <= |lit|
    ensures LiteralAt(s, i, lit[..n])
  {
    forall k | 0 <= k < n
      ensures Lower(s[i + k]) == lit[..n][k]
    {
      assert lit[..n][k] == lit[k];
    }
  }

  /** Two literals with different first letters do not occur at the same place. */
  lemma FirstDiffers(s: string, i: nat, lit: string, other: string)
    requires LiteralAt(s, i, lit) && lit != [] && other != [] && lit[0] != other[0]
    ensures !LiteralAt(s, i, other)
  {
    LiteralFirst(s, i, lit);
    LiteralFirst(s, i, other);
  }

  /** Where a literal letter occurs, the text holds a word character. */
  lemma LetterIsWord(s: string, i: nat, lit: string, k: nat)
    requires LiteralAt(s, i, lit) && k < |lit| && IsAsciiLetter(lit[k])
    ensures IsWordChar(s[i + k])
  {
  }

  /** The alternation of the six units, one alternative at a time. */
  lemma UnitChain(s: string, i: nat, bounded: bool)
    requires i <= |s|
    ensures UnitFrom(s, i, bounded, UnitOrder) ==
      Attempt(s, i, bounded, Kg, Attempt(s, i, bounded, G, Attempt(s, i, bounded, Gr,
      Attempt(s, i, bounded, Ml, Attempt(s, i, bounded, L, Attempt(s, i, bounded, Lt, None))))))
  {
    UnitFromSix(s, i, bounded, UnitOrder);
  }

  /** What the alternation does over any six units, one at a time. */
  lemma UnitFromSix(s: string, i: nat, bounded: bool, alts: seq<Unit>)
    requires i <= |s| && |alts| == 6
    ensures UnitFrom(s, i, bounded, alts) ==
      Attempt(s, i, bounded, alts[0], Attempt(s, i, bounded, alts[1], Attempt(s, i, bounded, alts[2],
      Attempt(s, i, bounded, alts[3], Attempt(s, i, bounded, alts[4], Attempt(s, i, bounded, alts[5], None))))))
  {
    var a1 := alts[1..];
    var a2 := a1[1..];
    var a3 := a2[1..];
    var a4 := a3[1..];
    var a5 := a4[1..];
    assert a1[0] == alts[1] && a2[0] == alts[2] && a3[0] == alts[3] && a4[0] == alts[4] && a5[0] == alts[5];
    assert a5[1..] == [];
    UnitFromStep(s, i, bounded, a5);
    UnitFromStep(s, i, bounded, a4);
    UnitFromStep(s, i, bounded, a3);
    UnitFromStep(s, i, bounded, a2);
    UnitFromStep(s, i, bounded, a1);
    UnitFromStep(s, i, bounded, alts);
  }

  /** One alternative of the unit alternation, then `otherwise`. */
  function Attempt(s: string, i: nat, bounded: bool, u: Unit, otherwise: Option<(Unit, nat)>): Option<(Unit, nat)>
    requires i <= |s|
  {
    if Fits(s, i, bounded, u) then Some((u, i + |UnitText(u)|)) else otherwise
  }

  /** Unit `u` is spelled at `i`, followed by `\b` when `bounded`. */
  predicate Fits(s: string, i: nat, bounded: bool, u: Unit)
    requires i <= |s|
  {
    LiteralAt(s, i, UnitText(u)) && (!bounded || BoundaryAt(s, i + |UnitText(u)|))
  }

  lemma AttemptHit(s: string, i: nat, bounded: bool, u: Unit, otherwise: Option<(Unit, nat)>)
    requires i <= |s| && Fits(s, i, bounded, u)
    ensures Attempt(s, i, bounded, u, otherwise) == Some((u, i + |UnitText(u)|))
  {
  }

  lemma AttemptMiss(s: string, i: nat, bounded: bool, u: Unit, otherwise: Option<(Unit, nat)>)
    requires i <= |s| && !Fits(s, i, bounded, u)
    ensures Attempt(s, i, bounded, u, otherwise) == otherwise
  {
  }

  /** Without `\b`, a `kg` at `i` is taken as kilograms. */
  lemma KiloUnbounded(s: string, i: nat)
    requires LiteralAt(s, i, UnitText(Kg))
    ensures UnitFrom(s, i, false, UnitOrder) == Some((Kg, i + 2))
  {
    var t1 := Attempt(s, i, false, G, Attempt(s, i, false, Gr, Attempt(s, i, false, Ml,
      Attempt(s, i, false, L, Attempt(s, i, false, Lt, None)))));
    AttemptHit(s, i, false, Kg, t1);
    UnitChain(s, i, false);
  }

  /** A one-letter unit is spelled wherever its letter stands. */
  lemma OneLetterAt(s: string, i: nat, u: Unit)
    requires i < |s| && |UnitText(u)| == 1 && Lower(s[i]) == UnitText(u)[0]
    ensures LiteralAt(s, i, UnitText(u))
  {
  }

  /** Without `\b`, a `g` at `i` is taken as grams, whatever follows. */
  lemma GramUnbounded(s: string, i: nat)
    requires i < |s| && Lower(s[i]) == 'g'
    ensures UnitFrom(s, i, false, UnitOrder) == Some((G, i + 1))
  {
    OneLetterAt(s, i, G);
    MissByLetter(s, i, false, Kg);
    UnitChain(s, i, false);
    SecondFits(s, i, false, Kg, G, Attempt(s, i, false, Gr, Attempt(s, i, false, Ml,
      Attempt(s, i, false, L, Attempt(s, i, false, Lt, None)))));
  }

  /** When the first unit does not fit and the second does, the second is
      taken. */
  lemma SecondFits(s: string, i: nat, bounded: bool, a: Unit, b: Unit, rest: Option<(Unit, nat)>)
    requires i <= |s| && !Fits(s, i, bounded, a) && Fits(s, i, bounded, b)
    ensures Attempt(s, i, bounded, a, Attempt(s, i, bounded, b, rest)) == Some((b, i + |UnitText(b)|))
  {
  }

  /** Without `\b`, an `l` at `i` is taken as litres, whatever follows. */
  lemma LitreUnbounded(s: string, i: nat)
    requires i < |s| && Lower(s[i]) == 'l'
    ensures UnitFrom(s, i, false, UnitOrder) == Some((L, i + 1))
  {
    OneLetterAt(s, i, L);
    MissByLetter(s, i, false, Kg);
    MissByLetter(s, i, false, G);
    MissByLetter(s, i, false, Gr);
    MissByLetter(s, i, false, Ml);
    UnitChain(s, i, false);
    FifthFits(s, i, false, Kg, G, Gr, Ml, L, Attempt(s, i, false, Lt, None));
  }

  /** When the first four units do not fit and the fifth does, the fifth
      is taken. */
  lemma FifthFits(s: string, i: nat, bounded: bool, a: Unit, b: Unit, c: Unit, d: Unit, e: Unit,
                  rest: Option<(Unit, nat)>)
    requires i <= |s| && Fits(s, i, bounded, e)
    requires !Fits(s, i, bounded, a) && !Fits(s, i, bounded, b) && !Fits(s, i, bounded, c) && !Fits(s, i, bounded, d)
    ensures Attempt(s, i, bounded, a, Attempt(s, i, bounded, b, Attempt(s, i, bounded, c,
      Attempt(s, i, bounded, d, Attempt(s, i, bounded, e, rest))))) == Some((e, i + |UnitText(e)|))
  {
  }

  /** A unit whose first letter is not the one at `i` does not fit there. */
  lemma MissByLetter(s: string, i: nat, bounded: bool, u: Unit)
    requires i < |s| && Lower(s[i]) != UnitText(u)[0]
    ensures !Fits(s, i, bounded, u)
  {
    LiteralFirst(s, i, UnitText(u));
  }

  /** The alternation fails when no unit fits. */
  lemma NoUnitFits(s: string, i: nat, bounded: bool)
    requires i <= |s|
    requires !Fits(s, i, bounded, Kg) && !Fits(s, i, bounded, G) && !Fits(s, i, bounded, Gr)
    requires !Fits(s, i, bounded, Ml) && !Fits(s, i, bounded, L) && !Fits(s, i, bounded, Lt)
    ensures UnitFrom(s, i, bounded, UnitOrder).None?
  {
    UnitChain(s, i, bounded);
  }

  lemma UnitFromStep(s: string, i: nat, bounded: bool, alts: seq<Unit>)
    requires i <= |s| && alts != []
    ensures UnitFrom(s, i, bounded, alts) == Attempt(s, i, bounded, alts[0], UnitFrom(s, i, bounded, alts[1..]))
  {
  }

  /** A literal that occurs at `i` starts with the character at `i`. */
  lemma LiteralFirst(s: string, i: nat, lit: string)
    ensures LiteralAt(s, i, lit) && |lit| > 0 ==> Lower(s[i]) == lit[0]
  {
    if LiteralAt(s, i, lit) && |lit| > 0 {
      assert Lower(s[i + 0]) == lit[0];
    }
  }

  lemma {:induction false} MultiFromUnit(s: string, i: nat)
    requires i <= |s|
    ensures MultiFrom(s, i).Some? ==> MultiFrom(s, i).value.unit in {Kg, G, Ml, L}
    decreases |s| - i
  {
    if i < |s| && IsDigit(s[i]) {
      UnboundedUnit(s, SpaceEnd(s, NumberEnd(s, i)));
      assert TailAt(s, i, false).Some? ==> TailAt(s, i, false).value.unit in {Kg, G, Ml, L};
    }
    if FactorStep(s, i).Some? {
      MultiFromUnit(s, FactorStep(s, i).value);
    }
  }

  /** The unit the function reports for a multi block is `kg`, `g`, `ml`
      or `l`. */
  lemma MultiHitUnit(s: string)
    ensures FirstHit(s).Some? && FirstHit(s).value.MultiHit? ==>
              FirstHit(s).value.unit in {Kg, G, Ml, L}
  {
    var m := SearchFrom(Multi, s, 0);
    if m.Some? {
      var p := m.value.start;
      assert MultiAt(s, p) == m;
      MultiFromUnit(s, FactorStep(s, p).value);
    }
    DeadBranches(s);
  }

  /** `(None, None)` exactly when neither line 42 nor line 75 matches
      anywhere in the text. */
  lemma NoMatchIff(s: string)
    ensures Extract(Some(s)) == NoMatch <==>
              forall p | 0 <= p <= |s| :: MultiAt(s, p).None? && BareAt(s, p).None?
  {
    DeadBranches(s);
    var m := SearchFrom(Multi, s, 0);
    var b := SearchFrom(Bare, s, 0);
    if m.Some? {
      assert MatchAt(Multi, s, m.value.start).Some?;
    } else if b.Some? {
      assert MatchAt(Bare, s, b.value.start).Some?;
    } else {
      forall p | 0 <= p <= |s|
        ensures MultiAt(s, p).None? && BareAt(s, p).None?
      {
        NoneBetweenAt(Multi, s, 0, |s| + 1, p);
        NoneBetweenAt(Bare, s, 0, |s| + 1, p);
      }
    }
  }

  /** A character that can start one of the unit names. */
  predicate UnitInitial(c: char) {
    var l := Lower(c);
    l == 'k' || l == 'g' || l == 'm' || l == 'l'
  }

  lemma {:induction false} NoUnitFrom(s: string, i: nat, bounded: bool, alts: seq<Unit>)
    requires i <= |s|
    requires forall k | 0 <= k < |s| :: !UnitInitial(s[k])
    ensures UnitFrom(s, i, bounded, alts).None?
    decreases |alts|
  {
    if alts != [] {
      NoUnitAt(s, i, alts[0]);
      NoUnitFrom(s, i, bounded, alts[1..]);
    }
  }

  lemma NoUnitAt(s: string, i: nat, u: Unit)
    requires forall k | 0 <= k < |s| :: !UnitInitial(s[k])
    ensures !LiteralAt(s, i, UnitText(u))
  {
    if LiteralAt(s, i, UnitText(u)) {
      LiteralFirst(s, i, UnitText(u));
      assert UnitInitial(s[i]);
    }
  }

  lemma {:induction false} NoUnitMultiFrom(s: string, i: nat)
    requires i <= |s|
    requires forall k | 0 <= k < |s| :: !UnitInitial(s[k])
    ensures MultiFrom(s, i).None?
    decreases |s| - i
  {
    if i < |s| && IsDigit(s[i]) {
      NoUnitFrom(s, SpaceEnd(s, NumberEnd(s, i)), false, UnitOrder);
    }
    match FactorStep(s, i)
    case Some(j) => NoUnitMultiFrom(s, j);
    case None =>
  }

  /** A description in which no character is a `k`, `g`, `m` or `l` (in
      either case) gives `(None, None)`: every unit name starts with one. */
  lemma NoUnitLetterNoMatch(s: string)
    requires forall k | 0 <= k < |s| :: !UnitInitial(s[k])
    ensures Extract(Some(s)) == NoMatch
  {
    forall p | 0 <= p <= |s|
      ensures MultiAt(s, p).None? && BareAt(s, p).None?
    {
      if p < |s| && IsDigit(s[p]) {
        NoUnitFrom(s, SpaceEnd(s, NumberEnd(s, p)), true, UnitOrder);
      }
      if FactorStep(s, p).Some? {
        NoUnitMultiFrom(s, FactorStep(s, p).value);
      }
    }
    NoMatchIff(s);
  }

  /** `str()` of a float is written with digits, `.`, signs, `e`, `inf` and
      `nan`, none of which starts a unit: a numeric description cell gives
      `(None, None)`. */
  lemma FloatTextNoMatch(s: string)
    requires forall k | 0 <= k < |s| :: s[k] in "0123456789.+-einfa"
    ensures Extract(Some(s)) == NoMatch
  {
    forall k | 0 <= k < |s|
      ensures !UnitInitial(s[k])
    {
      assert s[k] in "0123456789.+-einfa";
    }
    NoUnitLetterNoMatch(s);
  }

  /** `w` spells the unit `u` in any mix of upper and lower case. */
  predicate Spells(w: string, u: Unit) {
    |w| == |UnitText(u)| && forall k | 0 <= k < |w| :: Lower(w[k]) == UnitText(u)[k]
  }

  /** A unit spelled out at the very end of the text is read as that unit:
      an earlier alternative either differs in its first letter or, as `g`
      inside `gr` and `l` inside `lt`, is not followed by `\b`. */
  lemma UnitAtEnd(s: string, i: nat, u: Unit)
    requires i + |UnitText(u)| == |s|
    requires LiteralAt(s, i, UnitText(u))
    ensures UnitFrom(s, i, true, UnitOrder) == Some((u, |s|))
  {
    match u
    case Kg => KiloAtEnd(s, i);
    case G => GramAtEnd(s, i);
    case Gr => GrAtEnd(s, i);
    case Ml => MilliAtEnd(s, i);
    case L => LitreAtEnd(s, i);
    case Lt => LtAtEnd(s, i);
  }

  lemma KiloAtEnd(s: string, i: nat)
    requires i + |UnitText(Kg)| == |s| && LiteralAt(s, i, UnitText(Kg))
    ensures UnitFrom(s, i, true, UnitOrder) == Some((Kg, |s|))
  {
    LetterIsWord(s, i, UnitText(Kg), |UnitText(Kg)| - 1);
    assert BoundaryAt(s, |s|);
    var t5 := Attempt(s, i, true, Lt, None);
    var t4 := Attempt(s, i, true, L, t5);
    var t3 := Attempt(s, i, true, Ml, t4);
    var t2 := Attempt(s, i, true, Gr, t3);
    var t1 := Attempt(s, i, true, G, t2);
    AttemptHit(s, i, true, Kg, t1);
    UnitChain(s, i, true);
  }

  lemma GramAtEnd(s: string, i: nat)
    requires i + |UnitText(G)| == |s| && LiteralAt(s, i, UnitText(G))
    ensures UnitFrom(s, i, true, UnitOrder) == Some((G, |s|))
  {
    LetterIsWord(s, i, UnitText(G), |UnitText(G)| - 1);
    assert BoundaryAt(s, |s|);
    FirstDiffers(s, i, UnitText(G), UnitText(Kg));
    var t5 := Attempt(s, i, true, Lt, None);
    var t4 := Attempt(s, i, true, L, t5);
    var t3 := Attempt(s, i, true, Ml, t4);
    var t2 := Attempt(s, i, true, Gr, t3);
    var t1 := Attempt(s, i, true, G, t2);
    AttemptHit(s, i, true, G, t2);
    AttemptMiss(s, i, true, Kg, t1);
    UnitChain(s, i, true);
  }

  lemma GrAtEnd(s: string, i: nat)
    requires i + |UnitText(Gr)| == |s| && LiteralAt(s, i, UnitText(Gr))
    ensures UnitFrom(s, i, true, UnitOrder) == Some((Gr, |s|))
  {
    LetterIsWord(s, i, UnitText(Gr), |UnitText(Gr)| - 1);
    assert BoundaryAt(s, |s|);
    FirstDiffers(s, i, UnitText(Gr), UnitText(Kg));
    LetterIsWord(s, i, UnitText(Gr), 0);
    assert !BoundaryAt(s, i + 1);
    var t5 := Attempt(s, i, true, Lt, None);
    var t4 := Attempt(s, i, true, L, t5);
    var t3 := Attempt(s, i, true, Ml, t4);
    var t2 := Attempt(s, i, true, Gr, t3);
    var t1 := Attempt(s, i, true, G, t2);
    AttemptHit(s, i, true, Gr, t3);
    AttemptMiss(s, i, true, G, t2);
    AttemptMiss(s, i, true, Kg, t1);
    UnitChain(s, i, true);
  }

  lemma MilliAtEnd(s: string, i: nat)
    requires i + |UnitText(Ml)| == |s| && LiteralAt(s, i, UnitText(Ml))
    ensures UnitFrom(s, i, true, UnitOrder) == Some((Ml, |s|))
  {
    LetterIsWord(s, i, UnitText(Ml), |UnitText(Ml)| - 1);
    assert BoundaryAt(s, |s|);
    FirstDiffers(s, i, UnitText(Ml), UnitText(Kg));
    FirstDiffers(s, i, UnitText(Ml), UnitText(G));
    FirstDiffers(s, i, UnitText(Ml), UnitText(Gr));
    var t5 := Attempt(s, i, true, Lt, None);
    var t4 := Attempt(s, i, true, L, t5);
    var t3 := Attempt(s, i, true, Ml, t4);
    var t2 := Attempt(s, i, true, Gr, t3);
    var t1 := Attempt(s, i, true, G, t2);
    AttemptHit(s, i, true, Ml, t4);
    AttemptMiss(s, i, true, Gr, t3);
    AttemptMiss(s, i, true, G, t2);
    AttemptMiss(s, i, true, Kg, t1);
    UnitChain(s, i, true);
  }

  lemma LitreAtEnd(s: string, i: nat)
    requires i + |UnitText(L)| == |s| && LiteralAt(s, i, UnitText(L))
    ensures UnitFrom(s, i, true, UnitOrder) == Some((L, |s|))
  {
    LetterIsWord(s, i, UnitText(L), |UnitText(L)| - 1);
    assert BoundaryAt(s, |s|);
    FirstDiffers(s, i, UnitText(L), UnitText(Kg));
    FirstDiffers(s, i, UnitText(L), UnitText(G));
    FirstDiffers(s, i, UnitText(L), UnitText(Gr));
    FirstDiffers(s, i, UnitText(L), UnitText(Ml));
    var t5 := Attempt(s, i, true, Lt, None);
    var t4 := Attempt(s, i, true, L, t5);
    var t3 := Attempt(s, i, true, Ml, t4);
    var t2 := Attempt(s, i, true, Gr, t3);
    var t1 := Attempt(s, i, true, G, t2);
    AttemptHit(s, i, true, L, t5);
    AttemptMiss(s, i, true, Ml, t4);
    AttemptMiss(s, i, true, Gr, t3);
    AttemptMiss(s, i, true, G, t2);
    AttemptMiss(s, i, true, Kg, t1);
    UnitChain(s, i, true);
  }

  lemma LtAtEnd(s: string, i: nat)
    requires i + |UnitText(Lt)| == |s| && LiteralAt(s, i, UnitText(Lt))
    ensures UnitFrom(s, i, true, UnitOrder) == Some((Lt, |s|))
  {
    LetterIsWord(s, i, UnitText(Lt), |UnitText(Lt)| - 1);
    assert BoundaryAt(s, |s|);
    FirstDiffers(s, i, UnitText(Lt), UnitText(Kg));
    FirstDiffers(s, i, UnitText(Lt), UnitText(G));
    FirstDiffers(s, i, UnitText(Lt), UnitText(Gr));
    FirstDiffers(s, i, UnitText(Lt), UnitText(Ml));
    LetterIsWord(s, i, UnitText(Lt), 0);
    assert !BoundaryAt(s, i + 1);
    var t5 := Attempt(s, i, true, Lt, None);
    var t4 := Attempt(s, i, true, L, t5);
    var t3 := Attempt(s, i, true, Ml, t4);
    var t2 := Attempt(s, i, true, Gr, t3);
    var t1 := Attempt(s, i, true, G, t2);
    AttemptHit(s, i, true, Lt, None);
    AttemptMiss(s, i, true, L, t5);
    AttemptMiss(s, i, true, Ml, t4);
    AttemptMiss(s, i, true, Gr, t3);
    AttemptMiss(s, i, true, G, t2);
    AttemptMiss(s, i, true, Kg, t1);
    UnitChain(s, i, true);
  }

  lemma SpelledAt(n: string, w: string, u: Unit)
    requires Spells(w, u)
    ensures LiteralAt(n + w, |n|, UnitText(u))
    ensures |w| > 0 && IsAsciiLetter((n + w)[|n|]) && !IsDigit((n + w)[|n|]) && !IsSep((n + w)[|n|])
  {
    var s := n + w;
    forall k | 0 <= k < |UnitText(u)|
      ensures Lower(s[|n| + k]) == UnitText(u)[k]
    {
      assert s[|n| + k] == w[k];
    }
    assert Lower(w[0]) == UnitText(u)[0];
  }

  /** Digits and separators are not changed by `lower()`. */
  lemma NumeralChars(n: string, k: nat)
    requires IsNumeral(n) && k < |n|
    ensures IsDigit(n[k]) || IsSep(n[k])
  {
    var e := DigitEnd(n, 0);
    if k > e {
      assert n[k] == n[e + 1..][k - e - 1];
    }
  }

  lemma NoCrossInQuantity(n: string, w: string, u: Unit)
    requires IsNumeral(n) && Spells(w, u)
    ensures forall k | 0 <= k < |n + w| :: Lower((n + w)[k]) != 'x'
  {
    var s := n + w;
    forall k | 0 <= k < |s|
      ensures Lower(s[k]) != 'x'
    {
      if k < |n| {
        NumeralChars(n, k);
      } else {
        assert s[k] == w[k - |n|];
        assert Lower(w[k - |n|]) == UnitText(u)[k - |n|];
      }
    }
  }

  lemma NumeralThenUnit(n: string, w: string, u: Unit)
    requires IsNumeral(n) && Spells(w, u)
    ensures TailAt(n + w, 0, true) == Some(Tail(|n|, u, |n + w|))
  {
    var s := n + w;
    SpelledAt(n, w, u);
    var k := DigitEnd(n, 0);
    forall j | 0 <= j < k
      ensures IsDigit(s[j])
    {
      assert s[j] == n[j];
    }
    DigitEndAt(s, 0, k);
    if k < |n| {
      forall j | k + 1 <= j < |n|
        ensures IsDigit(s[j])
      {
        assert s[j] == n[k + 1..][j - k - 1];
      }
      DigitEndAt(s, k + 1, |n|);
      assert s[k] == n[k];
    }
    assert NumberEnd(s, 0) == |n|;
    SpaceEndAt(s, |n|, |n|);
    UnitAtEnd(s, |n|, u);
  }

  lemma NoCrossNoSearch(s: string)
    requires forall k | 0 <= k < |s| :: Lower(s[k]) != 'x'
    ensures SearchFrom(Multi, s, 0).None?
  {
    forall p | 0 <= p <= |s|
      ensures MultiAt(s, p).None?
    {
      NoCrossNoFactor(s, p);
    }
  }

  /** A numeral written right against a unit, as in `1,5KG` or `500g`, is
      read by line 75: the whole text is matched and the count is the
      numeral's value, times 1000 for `kg`, `l` and `lt`, truncated. */
  lemma BareQuantity(n: string, w: string, u: Unit)
    requires IsNumeral(n) && Spells(w, u)
    ensures Extract(Some(n + w)) == Found(n + w, Trunc(Scaled(NumeralValue(n), u)))
  {
    var s := n + w;
    NoCrossInQuantity(n, w, u);
    NoCrossNoSearch(s);
    BareFromStart(n, w, u);
    DeadBranches(s);
    WholeBare(s, u, NumeralValue(n));
  }

  lemma BareFromStart(n: string, w: string, u: Unit)
    requires IsNumeral(n) && Spells(w, u)
    ensures SearchFrom(Bare, n + w, 0) == Some(BareHit(0, |n + w|, u, NumeralValue(n)))
  {
    var s := n + w;
    NumeralThenUnit(n, w, u);
    BareOfTail(s, |n|, u);
    assert s[0..|n|] == n;
  }

  lemma BareOfTail(s: string, k: nat, u: Unit)
    requires 0 < |s| && IsDigit(s[0])
    requires TailAt(s, 0, true) == Some(Tail(k, u, |s|))
    ensures k <= |s| && IsNumeral(s[0..k])
    ensures SearchFrom(Bare, s, 0) == Some(BareHit(0, |s|, u, NumeralValue(s[0..k])))
  {
    NumeralSlice(s, 0);
    BareAtTail(s, k, u);
    SearchAtStart(s, BareHit(0, |s|, u, NumeralValue(s[0..k])));
  }

  lemma BareAtTail(s: string, k: nat, u: Unit)
    requires 0 < |s| && IsDigit(s[0])
    requires TailAt(s, 0, true) == Some(Tail(k, u, |s|))
    requires k <= |s| && IsNumeral(s[0..k])
    ensures BareAt(s, 0) == Some(BareHit(0, |s|, u, NumeralValue(s[0..k])))
  {
  }

  lemma SearchAtStart(s: string, h: Hit)
    requires BareAt(s, 0) == Some(h)
    ensures SearchFrom(Bare, s, 0) == Some(h)
  {
  }

  /** A bare numeral that spans the whole text is the answer. */
  lemma WholeBare(s: string, u: Unit, v: real)
    requires FirstHit(s) == Some(BareHit(0, |s|, u, v))
    ensures Extract(Some(s)) == Found(s, Trunc(Scaled(v, u)))
  {
    var h := BareHit(0, |s|, u, v);
    BareTotal(s, h);
    assert s[0..|s|] == s;
  }

  lemma BareTotal(s: string, h: Hit)
    requires h.start < h.end <= |s| && IsDigit(s[h.start]) && h.BareHit?
    ensures HitTotal(s, h) == Scaled(h.value, h.unit)
  {
  }

  lemma {:induction false} NoCrossTokens(s: string, w: nat, toks: seq<string>)
    requires w <= |s|
    requires forall k | 0 <= k < |s| :: Lower(s[k]) != 'x'
    ensures TokenThenCross(s, w, toks).None?
    decreases |toks|
  {
    if toks != [] {
      NoCrossTokens(s, w, toks[1..]);
    }
  }

  lemma NoCrossNoFactor(s: string, p: nat)
    requires p <= |s|
    requires forall k | 0 <= k < |s| :: Lower(s[k]) != 'x'
    ensures FactorStep(s, p).None? && MultiAt(s, p).None?
  {
    if p < |s| && IsDigit(s[p]) {
      NoCrossTokens(s, SpaceEnd(s, DigitEnd(s, p)), PackTokens);
    }
  }

  lemma {:induction false} TimesAllNonNegative(start: real, xs: seq<real>)
    requires start >= 0.0
    requires forall k | 0 <= k < |xs| :: xs[k] >= 0.0
    ensures TimesAll(start, xs) >= 0.0
  {
    if xs != [] {
      TimesAllNonNegative(start, xs[..|xs| - 1]);
    }
  }

  lemma HitTotalNonNegative(s: string, h: Hit)
    requires h.start < h.end <= |s| && IsDigit(s[h.start])
    requires !h.MultiHit? ==> h.value >= 0.0
    ensures HitTotal(s, h) >= 0.0
  {
    match h
    case MultiHit(start, end, u) =>
      MultiTotalNonNegative(BlockNumbers(s[start..end]), u);
    case TripleHit(_, _, u, n1, n2, v) =>
      ProductNonNegative((n1 * n2) as real, Scaled(v, u));
    case DoubleHit(_, _, u, n1, v) =>
      ProductNonNegative(n1 as real, Scaled(v, u));
    case BareHit(_, _, u, v) =>
  }

  lemma MultiTotalNonNegative(ns: seq<real>, u: Unit)
    requires |ns| > 0 && forall k | 0 <= k < |ns| :: ns[k] >= 0.0
    ensures MultiTotal(ns, u) >= 0.0
  {
    var mults := if |ns| > 1 then ns[..|ns| - 1] else [];
    TimesAllNonNegative(Scaled(ns[|ns| - 1], u), mults);
  }

  lemma ProductNonNegative(a: real, b: real)
    requires a >= 0.0 && b >= 0.0
    ensures a * b >= 0.0
  {
  }

  /** The count of grams or millilitres is never negative: a minus sign is
      not part of any pattern. */
  lemma GramsNonNegative(text: Option<string>)
    ensures Extract(text).Found? ==> Extract(text).grams >= 0
  {
    if text.Some? && FirstHit(text.value).Some? {
      HitTotalNonNegative(text.value, FirstHit(text.value).value);
    }
  }

  // ---- line 46: `re.findall` splits the block greedily, left to right

  /** The positions `[start, end)` of one numeral in the text. */
  datatype Span = Span(start: nat, end: nat)

  /** Where each numeral of `FindNumerals(t, i)` lies in `t`. */
  function NumeralSpans(t: string, i: nat): (r: seq<Span>)
    requires i <= |t|
    ensures |r| == |FindNumerals(t, i)|
    ensures forall k | 0 <= k < |r| :: i <= r[k].start < r[k].end <= |t|
    decreases |t| - i
  {
    if i == |t| then []
    else if IsDigit(t[i]) then [Span(i, NumberEnd(t, i))] + NumeralSpans(t, NumberEnd(t, i))
    else NumeralSpans(t, i + 1)
  }

  /** Each numeral is the text of its span, which starts on a digit and
      ends where the greedy `\d+[.,]?\d*` from there ends. */
  lemma {:induction false} NumeralsAt(t: string, i: nat)
    requires i <= |t|
    ensures forall k | 0 <= k < |NumeralSpans(t, i)| ::
      var sp := NumeralSpans(t, i)[k];
      IsDigit(t[sp.start]) && sp.end == NumberEnd(t, sp.start) && FindNumerals(t, i)[k] == t[sp.start..sp.end]
    decreases |t| - i
  {
    if i == |t| {
    } else if IsDigit(t[i]) {
      var e := NumberEnd(t, i);
      NumeralsAt(t, e);
      assert NumeralSpans(t, i) == [Span(i, e)] + NumeralSpans(t, e);
      assert FindNumerals(t, i) == [t[i..e]] + FindNumerals(t, e);
    } else {
      NumeralsAt(t, i + 1);
    }
  }

  /** Spans that come in text order and do not overlap. */
  predicate InOrder(sp: seq<Span>) {
    forall k, m | 0 <= k < m < |sp| :: sp[k].end <= sp[m].start
  }

  /** Every digit at or after `i` lies in one of the spans. */
  predicate CoversDigits(t: string, sp: seq<Span>, i: nat) {
    forall j | i <= j < |t| && IsDigit(t[j]) :: exists k | 0 <= k < |sp| :: sp[k].start <= j < sp[k].end
  }

  /** A span ending before all of `rest` starts keeps the spans in order. */
  lemma OrderCons(head: Span, rest: seq<Span>)
    requires InOrder(rest) && forall m | 0 <= m < |rest| :: head.end <= rest[m].start
    ensures InOrder([head] + rest)
  {
    var sp := [head] + rest;
    forall k, m | 0 <= k < m < |sp|
      ensures sp[k].end <= sp[m].start
    {
      assert sp[m] == rest[m - 1];
      if k > 0 {
        assert sp[k] == rest[k - 1];
      }
    }
  }

  /** Spans covering the digits of `[i, e)` in front of spans covering
      those from `e` cover those from `i`. */
  lemma CoverCons(t: string, i: nat, e: nat, head: seq<Span>, rest: seq<Span>)
    requires i <= e && CoversDigits(t, rest, e)
    requires forall j | i <= j < e && j < |t| && IsDigit(t[j]) :: |head| == 1 && head[0].start <= j < head[0].end
    ensures CoversDigits(t, head + rest, i)
  {
    var sp := head + rest;
    forall j | i <= j < |t| && IsDigit(t[j])
      ensures exists k | 0 <= k < |sp| :: sp[k].start <= j < sp[k].end
    {
      if j < e {
        assert sp[0] == head[0];
      } else {
        var k' :| 0 <= k' < |rest| && rest[k'].start <= j < rest[k'].end;
        assert sp[|head| + k'] == rest[k'];
      }
    }
  }

  /** The numerals come in text order and do not overlap. */
  lemma {:induction false} NumeralsInOrder(t: string, i: nat)
    requires i <= |t|
    ensures InOrder(NumeralSpans(t, i))
    decreases |t| - i
  {
    if i == |t| {
    } else if IsDigit(t[i]) {
      var e := NumberEnd(t, i);
      NumeralsInOrder(t, e);
      OrderCons(Span(i, e), NumeralSpans(t, e));
    } else {
      NumeralsInOrder(t, i + 1);
    }
  }

  /** Every digit at or after `i` lies in one of the numerals. */
  lemma {:induction false} NumeralsCover(t: string, i: nat)
    requires i <= |t|
    ensures CoversDigits(t, NumeralSpans(t, i), i)
    decreases |t| - i
  {
    if i == |t| {
    } else if IsDigit(t[i]) {
      var e := NumberEnd(t, i);
      NumeralsCover(t, e);
      CoverCons(t, i, e, [Span(i, e)], NumeralSpans(t, e));
    } else {
      NumeralsCover(t, i + 1);
      CoverCons(t, i, i + 1, [], NumeralSpans(t, i + 1));
      assert [] + NumeralSpans(t, i + 1) == NumeralSpans(t, i);
    }
  }

  /** `re.findall(r"\d+[.,]?\d*", t)` from `i`: each numeral is the text
      of its span, the longest match at a digit, never followed by a digit;
      the spans come in text order without overlapping; and every digit
      at or after `i` lies in exactly one of them. */
  lemma Findall(t: string, i: nat)
    requires i <= |t|
    ensures forall k | 0 <= k < |NumeralSpans(t, i)| ::
      var sp := NumeralSpans(t, i)[k];
      IsDigit(t[sp.start]) && FindNumerals(t, i)[k] == t[sp.start..sp.end] &&
      sp.end == NumberEnd(t, sp.start) && (sp.end == |t| || !IsDigit(t[sp.end]))
    ensures InOrder(NumeralSpans(t, i))
    ensures CoversDigits(t, NumeralSpans(t, i), i)
  {
    NumeralsAt(t, i);
    NumeralsInOrder(t, i);
    NumeralsCover(t, i);
    forall k | 0 <= k < |NumeralSpans(t, i)|
      ensures var sp := NumeralSpans(t, i)[k]; sp.end == |t| || !IsDigit(t[sp.end])
    {
      NumberEndStops(t, NumeralSpans(t, i)[k].start);
    }
  }

  /** A digit lies in exactly one numeral. */
  lemma OneSpan(t: string, i: nat, j: nat)
    requires i <= j < |t| && IsDigit(t[j])
    ensures exists k | 0 <= k < |NumeralSpans(t, i)| :: NumeralSpans(t, i)[k].start <= j < NumeralSpans(t, i)[k].end
    ensures forall k, m | 0 <= k < m < |NumeralSpans(t, i)| ::
      !(NumeralSpans(t, i)[k].start <= j < NumeralSpans(t, i)[k].end &&
        NumeralSpans(t, i)[m].start <= j < NumeralSpans(t, i)[m].end)
  {
    NumeralsInOrder(t, i);
    NumeralsCover(t, i);
  }

  /** The greedy numeral is never followed by a digit. */
  lemma NumberEndStops(t: string, q: nat)
    requires q < |t| && IsDigit(t[q])
    ensures NumberEnd(t, q) == |t| || !IsDigit(t[NumberEnd(t, q)])
  {
    var a := DigitEnd(t, q);
    if a < |t| && IsSep(t[a]) {
      assert NumberEnd(t, q) == DigitEnd(t, a + 1);
    }
  }
}
