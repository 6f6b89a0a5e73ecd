/** The order statistics pandas computes over a group of prices: the
    linearly interpolated quantile of `Series.quantile` and the median of
    `Series.median`, both over the values present, in exact arithmetic. */
module Stats {
  import opened Options

  predicate Sorted(s: seq<real>) {
    forall i, j | 0 <= i <= j < |s| :: s[i] <= s[j]
  }

  /** `x` put into its place in an ascending sequence. */
  function Insert(x: real, s: seq<real>): (r: seq<real>)
    requires Sorted(s)
    ensures |r| == |s| + 1
    ensures Sorted(r)
    ensures multiset(r) == multiset(s) + multiset{x}
  {
    if s == [] then
      [x]
    else if x <= s[0] then
      [x] + s
    else
      var t := Insert(x, s[1..]);
      InsertAbove(x, s, t);
      assert s == [s[0]] + s[1..];
      [s[0]] + t
  }

  /** Putting `s[0]` back in front of the rest with `x` inserted keeps the
      order, when `x` is above `s[0]`. */
  lemma InsertAbove(x: real, s: seq<real>, t: seq<real>)
    requires Sorted(s) && Sorted(t) && s != [] && s[0] < x
    requires multiset(t) == multiset(s[1..]) + multiset{x}
    ensures Sorted([s[0]] + t)
  {
    forall k | 0 <= k < |t|
      ensures s[0] <= t[k]
    {
      assert t[k] in multiset(t);
      if t[k] != x {
        assert t[k] in multiset(s[1..]);
        var m :| 0 <= m < |s[1..]| && s[1..][m] == t[k];
        assert s[m + 1] == t[k];
      }
    }
  }

  /** The values in ascending order. */
  function Sort(s: seq<real>): (r: seq<real>)
    ensures |r| == |s|
    ensures Sorted(r)
    ensures multiset(r) == multiset(s)
  {
    if s == [] then
      []
    else
      assert s == s[..|s| - 1] + [s[|s| - 1]];
      Insert(s[|s| - 1], Sort(s[..|s| - 1]))
  }

  /** Two ascending sequences holding the same values are the same sequence. */
  lemma {:induction false} SortedUnique(a: seq<real>, b: seq<real>)
    requires Sorted(a) && Sorted(b) && multiset(a) == multiset(b)
    ensures a == b
    decreases |a|
  {
    if a != [] {
      assert b != [] by {
        assert a[0] in multiset(b);
      }
      FirstIsLeast(a, b[0]);
      FirstIsLeast(b, a[0]);
      SortedTail(a);
      SortedTail(b);
      assert a[0] == b[0];
      assert a == [a[0]] + a[1..] && b == [b[0]] + b[1..];
      assert multiset(a) == multiset{a[0]} + multiset(a[1..]);
      assert multiset(b) == multiset{a[0]} + multiset(b[1..]);
      assert multiset(a[1..]) == multiset(a) - multiset{a[0]};
      assert multiset(b[1..]) == multiset(b) - multiset{a[0]};
      SortedUnique(a[1..], b[1..]);
    }
  }

  /** The first of ascending values is the least of them. */
  lemma FirstIsLeast(a: seq<real>, x: real)
    requires Sorted(a) && x in multiset(a)
    ensures a[0] <= x
  {
    assert x in a;
  }

  lemma SortedTail(a: seq<real>)
    requires Sorted(a) && a != []
    ensures Sorted(a[1..])
  {
    assert forall i | 0 <= i < |a[1..]| :: a[1..][i] == a[i + 1];
  }

  /** The order the values come in does not matter to their sorted form. */
  lemma SortPermutation(s: seq<real>, t: seq<real>)
    requires multiset(s) == multiset(t)
    ensures Sort(s) == Sort(t)
  {
    SortedUnique(Sort(s), Sort(t));
  }

  /** The value at fractional position `h` of an ascending sequence: the
      element at `floor(h)`, moved towards the next one by the fractional
      part of `h` (the "linear" interpolation of `Series.quantile`). */
  function Interpolate(v: seq<real>, h: real): (r: real)
    requires Sorted(v) && 0.0 <= h <= (|v| - 1) as real
    ensures v[h.Floor] <= r
    ensures h.Floor + 1 < |v| ==> r <= v[h.Floor + 1]
    ensures h.Floor + 1 >= |v| ==> r == v[h.Floor]
  {
    var lo := h.Floor;
    if lo + 1 < |v| then
      Between(v[lo], v[lo + 1], h - lo as real);
      v[lo] + (h - lo as real) * (v[lo + 1] - v[lo])
    else
      v[lo]
  }

  lemma Between(a: real, b: real, t: real)
    requires a <= b && 0.0 <= t <= 1.0
    ensures a <= a + t * (b - a) <= b
  {
    assert t * (b - a) <= 1.0 * (b - a) by {
      assert (1.0 - t) * (b - a) >= 0.0;
    }
  }

  /** `Series.quantile(q)` over the values present: `None` (NaN) for no
      values, otherwise interpolated at position `(n - 1) * q` of the
      ascending values. */
  function Quantile(s: seq<real>, q: real): (r: Option<real>)
    requires 0.0 <= q <= 1.0
    ensures r.None? <==> s == []
  {
    if s == [] then
      None
    else
      var v := Sort(s);
      Some(Interpolate(v, Position(|v| - 1, q)))
  }

  /** Where the `q` quantile sits among `n + 1` ascending values. */
  function Position(n: nat, q: real): (h: real)
    requires 0.0 <= q <= 1.0
    ensures 0.0 <= h <= n as real
  {
    assert n as real * q <= n as real * 1.0;
    n as real * q
  }

  /** `Series.median()` over the values present: the middle value, or the
      mean of the two middle values, of the ascending values. */
  function Median(s: seq<real>): (r: Option<real>)
    ensures r.None? <==> s == []
  {
    if s == [] then None else Some(Middle(Sort(s)))
  }

  function Middle(v: seq<real>): real
    requires v != []
  {
    var n := |v|;
    if n % 2 == 1 then v[n / 2] else (v[n / 2 - 1] + v[n / 2]) / 2.0
  }

  /** The median is the 0.5 quantile. */
  lemma MedianIsHalfQuantile(s: seq<real>)
    ensures Median(s) == Quantile(s, 0.5)
  {
    if s != [] {
      MiddleIsHalfway(Sort(s));
    }
  }

  lemma MiddleIsHalfway(v: seq<real>)
    requires Sorted(v) && v != []
    ensures Middle(v) == Interpolate(v, Position(|v| - 1, 0.5))
  {
    var n := |v|;
    var h := Position(n - 1, 0.5);
    if n % 2 == 1 {
      assert h == ((n - 1) / 2) as real;
      assert h.Floor == n / 2;
    } else {
      assert h == (n / 2 - 1) as real + 0.5;
      assert h.Floor == n / 2 - 1;
    }
  }

  /** A quantile lies between the smallest and the largest value. */
  lemma QuantileInRange(s: seq<real>, q: real)
    requires 0.0 <= q <= 1.0 && s != []
    ensures var v := Sort(s);
      |v| == |s| && v[0] <= Quantile(s, q).value <= v[|v| - 1]
  {
  }

  /** A quantile of values all equal to `c` is `c`. */
  lemma QuantileConstant(s: seq<real>, q: real, c: real)
    requires 0.0 <= q <= 1.0 && s != []
    requires forall k | 0 <= k < |s| :: s[k] == c
    ensures Quantile(s, q) == Some(c)
  {
    QuantileInRange(s, q);
    SortedConstant(s, c);
  }

  /** Sorting values all equal to `c` gives values all equal to `c`. */
  lemma SortedConstant(s: seq<real>, c: real)
    requires forall k | 0 <= k < |s| :: s[k] == c
    ensures forall k | 0 <= k < |Sort(s)| :: Sort(s)[k] == c
  {
    var v := Sort(s);
    forall k | 0 <= k < |v|
      ensures v[k] == c
    {
      assert v[k] in multiset(s);
    }
  }

  /** Interpolation never decreases as the position grows. */
  lemma InterpolateMonotone(v: seq<real>, h1: real, h2: real)
    requires Sorted(v) && 0.0 <= h1 <= h2 <= (|v| - 1) as real
    ensures Interpolate(v, h1) <= Interpolate(v, h2)
  {
    var lo1, lo2 := h1.Floor, h2.Floor;
    if lo1 == lo2 {
      if lo1 + 1 < |v| {
        var d := v[lo1 + 1] - v[lo1];
        assert (h2 - h1) * d >= 0.0;
      }
    } else {
      assert lo1 < lo2;
    }
  }

  /** A lower quantile never exceeds a higher one: the band of a group is
      never empty. */
  lemma QuantileMonotone(s: seq<real>, q1: real, q2: real)
    requires 0.0 <= q1 <= q2 <= 1.0 && s != []
    ensures Quantile(s, q1).value <= Quantile(s, q2).value
  {
    var v := Sort(s);
    var n := |v| - 1;
    PositionMonotone(n, q1, q2);
    InterpolateMonotone(v, Position(n, q1), Position(n, q2));
  }

  lemma PositionMonotone(n: nat, q1: real, q2: real)
    requires 0.0 <= q1 <= q2 <= 1.0
    ensures Position(n, q1) <= Position(n, q2)
  {
    assert n as real * (q2 - q1) >= 0.0;
  }

  /** The quantiles and the median depend on the values, not on their order. */
  lemma OrderFree(s: seq<real>, t: seq<real>, q: real)
    requires multiset(s) == multiset(t) && 0.0 <= q <= 1.0
    ensures Quantile(s, q) == Quantile(t, q)
    ensures Median(s) == Median(t)
  {
    SortPermutation(s, t);
    assert |s| == |multiset(s)| == |multiset(t)| == |t|;
  }
}
