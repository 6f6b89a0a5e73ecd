/** The packaging-quantity parser `extrair_peso`: four regular expressions
    searched in a fixed order over a product description, each turned into a
    count of grams or millilitres.

    Every pattern is modelled by a deterministic scanner that returns what
    Python's backtracking `re.search` returns (case-insensitive).  The
    scanners commit to the longest run for every `\d+`, `\d*` and `\s*`:
    a shorter `\d+`/`\d*` leaves a digit (or a separator) as the next
    character and a shorter `\s*` leaves a blank, and neither can start the
    next element of any of the four patterns, so every shorter alternative
    fails on its first character.  The two places where backtracking does
    choose are modelled as such: the greedy repetition `(...)+` tries one
    more round before the tail (MultiFrom), and an alternation takes the
    first alternative, in the written order, whose continuation succeeds
    (UnitFrom, TokenThenCross). */
module Quantity {
  import opened Options
  import opened Chars
  import opened Numbers

  /** The capture `(kg|g|gr|ml|l|lt)`. */
  datatype Unit = Kg | G | Gr | Ml | L | Lt

  function UnitText(u: Unit): (t: string)
    ensures 0 < |t| <= 2
  {
    match u
    case Kg => "kg"
    case G => "g"
    case Gr => "gr"
    case Ml => "ml"
    case L => "l"
    case Lt => "lt"
  }

  /** The order in which the alternation tries the units. */
  const UnitOrder: seq<Unit> := [Kg, G, Gr, Ml, L, Lt]

  /** The units counted in thousands of grams or millilitres. */
  predicate Thousands(u: Unit) {
    u == Kg || u == Lt || u == L
  }

  /** A value in unit `u`, in grams or millilitres. */
  function Scaled(v: real, u: Unit): (r: real)
    ensures Thousands(u) ==> r == 1000.0 * v
    ensures !Thousands(u) ==> r == v
  {
    if Thousands(u) then v * 1000.0 else v
  }

  /** The optional pack token `(?:UN|UNID|CJ|CX|DS|PCT|FD|SC)?`, lower-cased. */
  const PackTokens: seq<string> := ["un", "unid", "cj", "cx", "ds", "pct", "fd", "sc"]

  /** The lower-case literal `lit` occurs at `i`, ignoring case. */
  predicate LiteralAt(s: string, i: nat, lit: string) {
    i + |lit| <= |s| && forall k | 0 <= k < |lit| :: Lower(s[i + k]) == lit[k]
  }

  /** `\b` at position `e`. */
  predicate BoundaryAt(s: string, e: nat)
    requires e <= |s|
  {
    (0 < e && IsWordChar(s[e - 1])) != (e < |s| && IsWordChar(s[e]))
  }

  /** `\d+[.,]?\d*` from a digit at `q`: where the numeral ends. */
  function NumberEnd(s: string, q: nat): (e: nat)
    requires q < |s| && IsDigit(s[q])
    ensures q < e <= |s|
  {
    var a := DigitEnd(s, q);
    if a < |s| && IsSep(s[a]) then DigitEnd(s, a + 1) else a
  }

  lemma DigitSlice(s: string, p: nat)
    requires p <= |s|
    ensures AllDigits(s[p..DigitEnd(s, p)])
  {
    var e := DigitEnd(s, p);
    assert forall k | 0 <= k < e - p :: s[p..e][k] == s[p + k];
  }

  /** What `\d+[.,]?\d*` matched is a numeral. */
  lemma NumeralSlice(s: string, q: nat)
    requires q < |s| && IsDigit(s[q])
    ensures IsNumeral(s[q..NumberEnd(s, q)])
  {
    var a := DigitEnd(s, q);
    var e := NumberEnd(s, q);
    var n := s[q..e];
    assert forall k | 0 <= k < a - q :: n[k] == s[q + k];
    DigitEndAt(n, 0, a - q);
    if a < e {
      assert forall k | a - q + 1 <= k < |n| :: n[k] == s[q + k];
    }
  }

  /** The unit alternation at `i`, followed by `\b` when `bounded`:
      the first alternative of `alts` whose letters and boundary match. */
  function UnitFrom(s: string, i: nat, bounded: bool, alts: seq<Unit>): (r: Option<(Unit, nat)>)
    requires i <= |s|
    ensures r.Some? ==> r.value.0 in alts && LiteralAt(s, i, UnitText(r.value.0))
    ensures r.Some? ==> r.value.1 == i + |UnitText(r.value.0)| <= |s|
    ensures r.Some? && bounded ==> BoundaryAt(s, r.value.1)
  {
    if alts == [] then
      None
    else
      var e := i + |UnitText(alts[0])|;
      if LiteralAt(s, i, UnitText(alts[0])) && (!bounded || BoundaryAt(s, e)) then
        Some((alts[0], e))
      else
        UnitFrom(s, i, bounded, alts[1..])
  }

  /** What `\d+[.,]?\d*\s*(kg|g|gr|ml|l|lt)` (with a trailing `\b` when
      `bounded`) matched from `q`. */
  datatype Tail = Tail(numberEnd: nat, unit: Unit, end: nat)

  function TailAt(s: string, q: nat, bounded: bool): (r: Option<Tail>)
    requires q <= |s|
    ensures r.Some? ==> q < |s| && IsDigit(s[q]) && r.value.numberEnd == NumberEnd(s, q)
    ensures r.Some? ==> q < r.value.end <= |s|
  {
    if q < |s| && IsDigit(s[q]) then
      var f := NumberEnd(s, q);
      match UnitFrom(s, SpaceEnd(s, f), bounded, UnitOrder)
      case None => None
      case Some((u, e)) => Some(Tail(f, u, e))
    else
      None
  }

  /** `\s*[xX]\s*` from `i`: where it ends. */
  function CrossAfter(s: string, i: nat): (r: Option<nat>)
    requires i <= |s|
    ensures r.Some? ==> i < r.value <= |s|
  {
    var w := SpaceEnd(s, i);
    if w < |s| && Lower(s[w]) == 'x' then Some(SpaceEnd(s, w + 1)) else None
  }

  /** `(?:UN|UNID|...)?\s*[xX]\s*` from `w`: each token of `toks` in turn,
      then the empty alternative. */
  function TokenThenCross(s: string, w: nat, toks: seq<string>): (r: Option<nat>)
    requires w <= |s|
    ensures r.Some? ==> w < r.value <= |s|
  {
    if toks == [] then
      CrossAfter(s, w)
    else if LiteralAt(s, w, toks[0]) && CrossAfter(s, w + |toks[0]|).Some? then
      CrossAfter(s, w + |toks[0]|)
    else
      TokenThenCross(s, w, toks[1..])
  }

  /** One round of `\d+\s*(?:UN|...)?\s*[xX]\s*` from `i`: where it ends. */
  function FactorStep(s: string, i: nat): (r: Option<nat>)
    requires i <= |s|
    ensures r.Some? ==> i < |s| && IsDigit(s[i]) && i < r.value <= |s|
  {
    if i < |s| && IsDigit(s[i]) then
      TokenThenCross(s, SpaceEnd(s, DigitEnd(s, i)), PackTokens)
    else
      None
  }

  /** `(...)*` followed by the unbounded tail, after at least one round
      ended at `i`: the greedy repetition tries a further round first and
      falls back to the tail at `i` only when that fails. */
  function MultiFrom(s: string, i: nat): (r: Option<Tail>)
    requires i <= |s|
    ensures r.Some? ==> i < r.value.end <= |s|
    decreases |s| - i
  {
    match FactorStep(s, i)
    case Some(j) =>
      var more := MultiFrom(s, j);
      if more.Some? then more else TailAt(s, i, false)
    case None =>
      TailAt(s, i, false)
  }

  /** The four patterns, in the order the function tries them. */
  datatype Pattern = Multi | Triple | Double | Bare

  /** A match with the groups the function reads from it. */
  datatype Hit =
    | MultiHit(start: nat, end: nat, unit: Unit)
    | TripleHit(start: nat, end: nat, unit: Unit, n1: nat, n2: nat, value: real)
    | DoubleHit(start: nat, end: nat, unit: Unit, n1: nat, value: real)
    | BareHit(start: nat, end: nat, unit: Unit, value: real)

  function PatternOf(h: Hit): Pattern {
    match h
    case MultiHit(_, _, _) => Multi
    case TripleHit(_, _, _, _, _, _) => Triple
    case DoubleHit(_, _, _, _, _) => Double
    case BareHit(_, _, _, _) => Bare
  }

  /** Line 42 at `p`: `((?:\d+\s*TOKEN?\s*[xX]\s*)+\d+[.,]?\d*\s*(kg|g|gr|ml|l|lt))`. */
  function MultiAt(s: string, p: nat): (r: Option<Hit>)
    requires p <= |s|
    ensures r.Some? ==> r.value.MultiHit? && r.value.start == p && p < r.value.end <= |s| && IsDigit(s[p])
    ensures r.Some? ==> FactorStep(s, p).Some? && MultiFrom(s, FactorStep(s, p).value).Some?
  {
    match FactorStep(s, p)
    case None => None
    case Some(j) =>
      match MultiFrom(s, j)
      case None => None
      case Some(t) => Some(MultiHit(p, t.end, t.unit))
  }

  /** Line 56 at `p`: `(\d+)\s*[xX]\s*(\d+)\s*[xX]\s*(\d+[.,]?\d*)\s*UNIT\b`. */
  function TripleAt(s: string, p: nat): (r: Option<Hit>)
    requires p <= |s|
    ensures r.Some? ==> r.value.TripleHit? && r.value.value >= 0.0
  {
    if !(p < |s| && IsDigit(s[p])) then None
    else
      var a1 := DigitEnd(s, p);
      match CrossAfter(s, a1)
      case None => None
      case Some(q2) =>
        if !(q2 < |s| && IsDigit(s[q2])) then None
        else
          var a2 := DigitEnd(s, q2);
          match CrossAfter(s, a2)
          case None => None
          case Some(q3) =>
            match TailAt(s, q3, true)
            case None => None
            case Some(t) =>
              DigitSlice(s, p);
              DigitSlice(s, q2);
              NumeralSlice(s, q3);
              Some(TripleHit(p, t.end, t.unit, DigitsValue(s[p..a1]), DigitsValue(s[q2..a2]),
                             NumeralValue(s[q3..t.numberEnd])))
  }

  /** Line 66 at `p`: `(\d+)\s*[xX]\s*(\d+[.,]?\d*)\s*UNIT\b`. */
  function DoubleAt(s: string, p: nat): (r: Option<Hit>)
    requires p <= |s|
    ensures r.Some? ==> r.value.DoubleHit? && r.value.value >= 0.0
  {
    if !(p < |s| && IsDigit(s[p])) then None
    else
      var a1 := DigitEnd(s, p);
      match CrossAfter(s, a1)
      case None => None
      case Some(q2) =>
        match TailAt(s, q2, true)
        case None => None
        case Some(t) =>
          DigitSlice(s, p);
          NumeralSlice(s, q2);
          Some(DoubleHit(p, t.end, t.unit, DigitsValue(s[p..a1]), NumeralValue(s[q2..t.numberEnd])))
  }

  /** Line 75 at `p`: `(\d+[.,]?\d*)\s*UNIT\b`. */
  function BareAt(s: string, p: nat): (r: Option<Hit>)
    requires p <= |s|
    ensures r.Some? ==> r.value.BareHit? && r.value.value >= 0.0
  {
    match TailAt(s, p, true)
    case None => None
    case Some(t) =>
      NumeralSlice(s, p);
      Some(BareHit(p, t.end, t.unit, NumeralValue(s[p..t.numberEnd])))
  }

  /** The pattern `pat` matched at exactly position `p`. */
  function MatchAt(pat: Pattern, s: string, p: nat): (r: Option<Hit>)
    requires p <= |s|
    ensures r.Some? ==> r.value.start == p && p < r.value.end <= |s| && IsDigit(s[p])
    ensures r.Some? ==> PatternOf(r.value) == pat
    ensures r.Some? && !r.value.MultiHit? ==> r.value.value >= 0.0
  {
    match pat
    case Multi => MultiAt(s, p)
    case Triple => TripleAt(s, p)
    case Double => DoubleAt(s, p)
    case Bare => BareAt(s, p)
  }

  /** No position from `lo` up to (not including) `hi` matches `pat`. */
  predicate NoneBetween(pat: Pattern, s: string, lo: nat, hi: nat)
    requires hi <= |s| + 1
    decreases hi - lo
  {
    lo >= hi || (MatchAt(pat, s, lo).None? && NoneBetween(pat, s, lo + 1, hi))
  }

  /** A position inside a range without matches does not match. */
  lemma {:induction false} NoneBetweenAt(pat: Pattern, s: string, lo: nat, hi: nat, q: nat)
    requires hi <= |s| + 1 && NoneBetween(pat, s, lo, hi) && lo <= q < hi
    ensures MatchAt(pat, s, q).None?
    decreases q - lo
  {
    if lo < q {
      assert NoneBetween(pat, s, lo + 1, hi);
      NoneBetweenAt(pat, s, lo + 1, hi, q);
    }
  }

  /** `re.search`: the match at the leftmost position from `from` on. */
  function SearchFrom(pat: Pattern, s: string, from: nat): (r: Option<Hit>)
    requires from <= |s|
    ensures r.Some? ==> from <= r.value.start <= |s| && MatchAt(pat, s, r.value.start) == r
    ensures r.Some? ==> NoneBetween(pat, s, from, r.value.start)
    ensures r.None? ==> NoneBetween(pat, s, from, |s| + 1)
    decreases |s| - from
  {
    var m := MatchAt(pat, s, from);
    if m.Some? then m
    else if from == |s| then None
    else SearchFrom(pat, s, from + 1)
  }

  /** The patterns in the order of lines 42, 56, 66 and 75: the first that
      matches anywhere wins. */
  function FirstHit(s: string): (r: Option<Hit>)
    ensures r.Some? ==> r.value.start < r.value.end <= |s| && IsDigit(s[r.value.start])
    ensures r.Some? && !r.value.MultiHit? ==> r.value.value >= 0.0
  {
    var multi := SearchFrom(Multi, s, 0);
    if multi.Some? then multi
    else
      var triple := SearchFrom(Triple, s, 0);
      if triple.Some? then triple
      else
        var double := SearchFrom(Double, s, 0);
        if double.Some? then double
        else SearchFrom(Bare, s, 0)
  }

  /** `re.findall(r"\d+[.,]?\d*", t)` from position `i`. */
  function FindNumerals(t: string, i: nat): (r: seq<string>)
    requires i <= |t|
    ensures forall k | 0 <= k < |r| :: IsNumeral(r[k])
    ensures i < |t| && IsDigit(t[i]) ==> |r| > 0
    decreases |t| - i
  {
    if i == |t| then
      []
    else if IsDigit(t[i]) then
      NumeralSlice(t, i);
      [t[i..NumberEnd(t, i)]] + FindNumerals(t, NumberEnd(t, i))
    else
      FindNumerals(t, i + 1)
  }

  /** Line 46: the numerals of the matched block, read as floats. */
  function BlockNumbers(bloco: string): (r: seq<real>)
    requires |bloco| > 0 && IsDigit(bloco[0])
    ensures |r| > 0
    ensures forall k | 0 <= k < |r| :: r[k] >= 0.0
  {
    NumeralValues(FindNumerals(bloco, 0))
  }

  /** Each numeral read as a float, in order. */
  function NumeralValues(ns: seq<string>): (r: seq<real>)
    requires forall k | 0 <= k < |ns| :: IsNumeral(ns[k])
    ensures |r| == |ns|
    ensures forall k | 0 <= k < |r| :: r[k] >= 0.0
  {
    seq(|ns|, k requires 0 <= k < |ns| => NumeralValue(ns[k]))
  }

  /** Reading a numeral in front of others puts its value in front. */
  lemma NumeralValuesCons(n: string, rest: seq<string>)
    requires IsNumeral(n) && forall k | 0 <= k < |rest| :: IsNumeral(rest[k])
    ensures forall k | 0 <= k < |[n] + rest| :: IsNumeral(([n] + rest)[k])
    ensures NumeralValues([n] + rest) == [NumeralValue(n)] + NumeralValues(rest)
  {
    var ns := [n] + rest;
    forall k | 0 <= k < |ns|
      ensures IsNumeral(ns[k])
    {
      if k > 0 {
        assert ns[k] == rest[k - 1];
      }
    }
    var l, r := NumeralValues(ns), [NumeralValue(n)] + NumeralValues(rest);
    forall k | 0 <= k < |ns|
      ensures l[k] == r[k]
    {
      if k > 0 {
        assert ns[k] == rest[k - 1];
      }
    }
  }

  /** `start` multiplied by each of `xs` in turn, as lines 51-53 do. */
  function TimesAll(start: real, xs: seq<real>): real {
    if xs == [] then start else TimesAll(start, xs[..|xs| - 1]) * xs[|xs| - 1]
  }

  /** Lines 47-53: every number but the last is a multiplier; the last one,
      scaled by the unit, is the weight. */
  function MultiTotal(numbers: seq<real>, u: Unit): real
    requires |numbers| > 0
  {
    var mults := if |numbers| > 1 then numbers[..|numbers| - 1] else [];
    TimesAll(Scaled(numbers[|numbers| - 1], u), mults)
  }

  /** The float the function passes to `int(...)` for a match. */
  function HitTotal(s: string, h: Hit): real
    requires h.start < h.end <= |s| && IsDigit(s[h.start])
  {
    match h
    case MultiHit(start, end, u) => MultiTotal(BlockNumbers(s[start..end]), u)
    case TripleHit(_, _, u, n1, n2, v) => (n1 * n2) as real * Scaled(v, u)
    case DoubleHit(_, _, u, n1, v) => n1 as real * Scaled(v, u)
    case BareHit(_, _, u, v) => Scaled(v, u)
  }

  /** The pair `extrair_peso` returns: `(None, None)` or the matched text
      with its integer count of grams or millilitres. */
  datatype Extraction = NoMatch | Found(matched: string, grams: int)

  /** `extrair_peso(texto)`, with `None` for a missing description. */
  function Extract(text: Option<string>): (r: Extraction)
    ensures text.None? ==> r == NoMatch
    ensures r.NoMatch? <==> text.None? || FirstHit(text.value).None?
    ensures r.Found? ==> 0 < |r.matched| <= |text.value| && IsDigit(r.matched[0])
  {
    match text
    case None => NoMatch
    case Some(s) =>
      match FirstHit(s)
      case None => NoMatch
      case Some(h) => Found(s[h.start..h.end], Trunc(HitTotal(s, h)))
  }

  /** Lines 47-53: the weight of a multi block, the multipliers folded into
      it one by one. */
  method BlockWeight(numeros: seq<real>, unidade: Unit) returns (total: real)
    requires |numeros| > 0
    ensures total == MultiTotal(numeros, unidade)
  {
    var multiplicadores := if |numeros| > 1 then numeros[..|numeros| - 1] else [];
    var peso := numeros[|numeros| - 1];
    if Thousands(unidade) {
      peso := peso * 1000.0;
    }
    total := peso;
    for i := 0 to |multiplicadores|
      invariant total == TimesAll(peso, multiplicadores[..i])
    {
      assert multiplicadores[..i + 1][..i] == multiplicadores[..i];
      total := total * multiplicadores[i];
    }
    assert multiplicadores[..|multiplicadores|] == multiplicadores;
  }

  /** Lines 57-64 and 67-73: the count groups times the scaled weight. */
  method GroupsWeight(s: string, h: Hit) returns (total: real)
    requires h.start < h.end <= |s| && IsDigit(s[h.start])
    requires h.TripleHit? || h.DoubleHit?
    ensures total == HitTotal(s, h)
  {
    var valor := h.value;
    if Thousands(h.unit) {
      valor := valor * 1000.0;
    }
    if h.TripleHit? {
      total := (h.n1 * h.n2) as real * valor;
    } else {
      total := h.n1 as real * valor;
    }
  }

  /** `extrair_peso` as the script runs it: the patterns in their order,
      the first one found giving the result. */
  method ExtractWeight(text: Option<string>) returns (r: Extraction)
    ensures r == Extract(text)
  {
    if text.None? {
      return NoMatch;
    }
    var s := text.value;
    var multi := SearchFrom(Multi, s, 0);
    if multi.Some? {
      var bloco := s[multi.value.start..multi.value.end];
      var total := BlockWeight(BlockNumbers(bloco), multi.value.unit);
      assert FirstHit(s) == multi;
      r := Found(bloco, Trunc(total));
      assert r == Extract(text);
      return;
    }
    var triple := SearchFrom(Triple, s, 0);
    if triple.Some? {
      var h := triple.value;
      var total := GroupsWeight(s, h);
      assert FirstHit(s) == triple;
      return Found(s[h.start..h.end], Trunc(total));
    }
    var double := SearchFrom(Double, s, 0);
    if double.Some? {
      var h := double.value;
      var total := GroupsWeight(s, h);
      assert FirstHit(s) == double;
      return Found(s[h.start..h.end], Trunc(total));
    }
    var bare := SearchFrom(Bare, s, 0);
    if bare.Some? {
      var h := bare.value;
      var valor := h.value;
      if Thousands(h.unit) {
        valor := valor * 1000.0;
      }
      assert FirstHit(s) == bare && valor == HitTotal(s, h);
      return Found(s[h.start..h.end], Trunc(valor));
    }
    assert FirstHit(s).None?;
    return NoMatch;
  }
}
