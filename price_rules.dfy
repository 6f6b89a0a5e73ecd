/** The two per-category price labellers, `validar_precio_por_categoria`
    and `validar_precio_mediana`: `groupby(categoria)[preco].transform`
    with a rule that labels every price of a group against a band computed
    from the group's prices. */
module PriceRules {
  import opened Options
  import opened Cells
  import opened Stats

  /** A row as the labellers see it: its category key and its price,
      each `None` when missing. */
  datatype PriceRow<K> = PriceRow(category: Option<K>, price: Option<real>)

  /** The prices present in the rows of category `k`, in row order: what
      the group's `quantile` and `median` are computed over. */
  function GroupPrices<K(==)>(rows: seq<PriceRow<K>>, k: K): (r: seq<real>)
    ensures |r| <= |rows|
  {
    if rows == [] then
      []
    else
      var here := if rows[0].category == Some(k) && rows[0].price.Some? then [rows[0].price.value] else [];
      here + GroupPrices(rows[1..], k)
  }

  /** `marcar_outliers` on one price: OK within the 5% and 95% quantiles of
      the group, bounds included. A missing price, or a group without
      prices (its quantiles are NaN), fails the comparison. */
  function BandLabel(prices: seq<real>, price: Option<real>): (l: Label)
    ensures l == Ok || l == Outlier
    ensures price.None? || prices == [] ==> l == Outlier
  {
    if prices == [] || price.None? then
      Outlier
    else if Quantile(prices, 0.05).value <= price.value <= Quantile(prices, 0.95).value then
      Ok
    else
      Outlier
  }

  /** `marcar_por_mediana` on one price: OK between a third of the group's
      median and three times it, bounds included. */
  function MedianLabel(prices: seq<real>, price: Option<real>): (l: Label)
    ensures l == Ok || l == OutlierMediana
    ensures price.None? || prices == [] ==> l == OutlierMediana
  {
    if prices == [] || price.None? then
      OutlierMediana
    else
      var m := Median(prices).value;
      if m / 3.0 <= price.value <= m * 3.0 then Ok else OutlierMediana
  }

  /** Lines 98-103: one label per row. A row without a category belongs to
      no group and gets no label. */
  function QuantileLabels<K(==)>(rows: seq<PriceRow<K>>): (r: seq<Option<Label>>)
    ensures |r| == |rows|
  {
    seq(|rows|, i requires 0 <= i < |rows| => RowBandLabel(rows, rows[i]))
  }

  /** The quantile label of one row among `rows`. */
  function RowBandLabel<K(==)>(rows: seq<PriceRow<K>>, row: PriceRow<K>): (r: Option<Label>)
    ensures r.None? <==> row.category.None?
    ensures r.Some? ==> r.value == Ok || r.value == Outlier
  {
    if row.category.None? then None else Some(BandLabel(GroupPrices(rows, row.category.value), row.price))
  }

  /** Lines 108-114: one label per row, as for `QuantileLabels`. */
  function MedianLabels<K(==)>(rows: seq<PriceRow<K>>): (r: seq<Option<Label>>)
    ensures |r| == |rows|
  {
    seq(|rows|, i requires 0 <= i < |rows| => RowMedianLabel(rows, rows[i]))
  }

  /** The median label of one row among `rows`. */
  function RowMedianLabel<K(==)>(rows: seq<PriceRow<K>>, row: PriceRow<K>): (r: Option<Label>)
    ensures r.None? <==> row.category.None?
    ensures r.Some? ==> r.value == Ok || r.value == OutlierMediana
  {
    if row.category.None? then None else Some(MedianLabel(GroupPrices(rows, row.category.value), row.price))
  }

  // ---- the groups

  /** A row's own price is among the prices of its group. */
  lemma {:induction false} InGroup<K>(rows: seq<PriceRow<K>>, i: nat, k: K)
    requires i < |rows| && rows[i].category == Some(k)
    ensures rows[i].price.Some? ==> rows[i].price.value in GroupPrices(rows, k)
  {
    if i > 0 {
      InGroup(rows[1..], i - 1, k);
    }
  }

  /** Every price of a group is the price of one of its rows. */
  lemma {:induction false} FromGroup<K>(rows: seq<PriceRow<K>>, k: K, v: real)
    requires v in GroupPrices(rows, k)
    ensures exists i | 0 <= i < |rows| :: rows[i].category == Some(k) && rows[i].price == Some(v)
  {
    if rows[0].category == Some(k) && rows[0].price == Some(v) {
    } else {
      FromGroup(rows[1..], k, v);
      var i :| 0 <= i < |rows[1..]| && rows[1..][i].category == Some(k) && rows[1..][i].price == Some(v);
      assert rows[i + 1] == rows[1..][i];
    }
  }

  lemma {:induction false} GroupConcat<K>(a: seq<PriceRow<K>>, b: seq<PriceRow<K>>, k: K)
    ensures GroupPrices(a + b, k) == GroupPrices(a, k) + GroupPrices(b, k)
  {
    if a == [] {
      assert a + b == b;
    } else {
      var here := if a[0].category == Some(k) && a[0].price.Some? then [a[0].price.value] else [];
      assert (a + b)[0] == a[0];
      assert (a + b)[1..] == a[1..] + b;
      GroupConcat(a[1..], b, k);
      assert GroupPrices(a + b, k) == here + (GroupPrices(a[1..], k) + GroupPrices(b, k));
      assert GroupPrices(a, k) == here + GroupPrices(a[1..], k);
    }
  }

  /** Reordering the rows reorders the prices of each group and nothing more. */
  lemma {:induction false} GroupPermutation<K>(a: seq<PriceRow<K>>, b: seq<PriceRow<K>>, k: K)
    requires multiset(a) == multiset(b)
    ensures multiset(GroupPrices(a, k)) == multiset(GroupPrices(b, k))
    decreases |a|
  {
    if a == [] {
      assert |b| == |multiset(b)| == 0;
    } else {
      var x := a[0];
      assert x in multiset(b);
      var j :| 0 <= j < |b| && b[j] == x;
      var rest := b[..j] + b[j + 1..];
      assert b == b[..j] + [x] + b[j + 1..];
      assert a == [x] + a[1..];
      assert multiset(a[1..]) == multiset(rest) by {
        assert multiset(a) == multiset{x} + multiset(a[1..]);
        assert multiset(b) == multiset{x} + multiset(rest);
        assert multiset(a[1..]) == multiset(a) - multiset{x};
        assert multiset(rest) == multiset(b) - multiset{x};
      }
      GroupPermutation(a[1..], rest, k);
      GroupConcat([x], a[1..], k);
      GroupConcat(b[..j] + [x], b[j + 1..], k);
      GroupConcat(b[..j], [x], k);
      GroupConcat(b[..j], b[j + 1..], k);
    }
  }

  /** `transform` gives every row a label: missing exactly where the row's
      category is missing, and otherwise one of the rule's two verdicts. */
  lemma LabelsShape<K>(rows: seq<PriceRow<K>>, i: nat)
    requires i < |rows|
    ensures QuantileLabels(rows)[i].None? <==> rows[i].category.None?
    ensures QuantileLabels(rows)[i].Some? ==> QuantileLabels(rows)[i].value in {Ok, Outlier}
    ensures MedianLabels(rows)[i].None? <==> rows[i].category.None?
    ensures MedianLabels(rows)[i].Some? ==> MedianLabels(rows)[i].value in {Ok, OutlierMediana}
  {
  }

  /** The quantile label of a row of category `k` is its price's label in
      the group of `k`. */
  lemma RowBand<K>(rows: seq<PriceRow<K>>, i: nat, k: K)
    requires i < |rows| && rows[i].category == Some(k)
    ensures QuantileLabels(rows)[i] == Some(BandLabel(GroupPrices(rows, k), rows[i].price))
  {
  }

  /** The median label of a row of category `k` is its price's label in
      the group of `k`. */
  lemma RowMedian<K>(rows: seq<PriceRow<K>>, i: nat, k: K)
    requires i < |rows| && rows[i].category == Some(k)
    ensures MedianLabels(rows)[i] == Some(MedianLabel(GroupPrices(rows, k), rows[i].price))
  {
  }

  // ---- the quantile rule

  /** A price of a group is OK exactly when it lies within the group's 5%
      and 95% quantiles. */
  lemma BandVerdict(g: seq<real>, p: real)
    requires p in g
    ensures g != []
    ensures BandLabel(g, Some(p)) == Ok <==> Quantile(g, 0.05).value <= p <= Quantile(g, 0.95).value
  {
  }

  /** A row of a group without a price is an outlier under both rules. */
  lemma MissingPriceOutlier<K>(rows: seq<PriceRow<K>>, i: nat)
    requires i < |rows| && rows[i].category.Some? && rows[i].price.None?
    ensures QuantileLabels(rows)[i] == Some(Outlier)
    ensures MedianLabels(rows)[i] == Some(OutlierMediana)
  {
  }

  /** When every price of a group is the same, every priced row of the
      group is OK. */
  lemma ConstantGroupOk<K>(rows: seq<PriceRow<K>>, k: K, c: real, i: nat)
    requires forall j | 0 <= j < |rows| && rows[j].category == Some(k) && rows[j].price.Some? ::
      rows[j].price.value == c
    requires i < |rows| && rows[i].category == Some(k) && rows[i].price.Some?
    ensures QuantileLabels(rows)[i] == Some(Ok)
  {
    var g := GroupPrices(rows, k);
    InGroup(rows, i, k);
    forall m | 0 <= m < |g|
      ensures g[m] == c
    {
      FromGroup(rows, k, g[m]);
    }
    QuantileConstant(g, 0.05, c);
    QuantileConstant(g, 0.95, c);
  }

  /** A row alone in its group with a price is OK. */
  lemma LonePriceOk<K>(rows: seq<PriceRow<K>>, i: nat, k: K)
    requires i < |rows| && rows[i].category == Some(k) && rows[i].price.Some?
    requires forall j | 0 <= j < |rows| && rows[j].category == Some(k) && rows[j].price.Some? :: j == i
    ensures QuantileLabels(rows)[i] == Some(Ok)
  {
    ConstantGroupOk(rows, k, rows[i].price.value, i);
  }

  /** Of two different prices, both fall outside the band: the 5% quantile
      lies above the lower one and the 95% quantile below the higher one. */
  lemma TwoPricesBothOutliers(a: real, b: real)
    requires a < b
    ensures BandLabel([a, b], Some(a)) == Outlier
    ensures BandLabel([a, b], Some(b)) == Outlier
  {
    QuantilesOfTwo(a, b);
  }

  lemma QuantilesOfTwo(a: real, b: real)
    requires a < b
    ensures Quantile([a, b], 0.05).value > a
    ensures Quantile([a, b], 0.95).value < b
  {
    SortedUnique(Sort([a, b]), [a, b]);
    assert Position(1, 0.05) == 0.05 && 0.05.Floor == 0;
    assert Position(1, 0.95) == 0.95 && 0.95.Floor == 0;
    assert Quantile([a, b], 0.05).value == a + 0.05 * (b - a);
    assert Quantile([a, b], 0.95).value == a + 0.95 * (b - a);
  }

  // ---- the median rule

  /** A price of a group is OK exactly when it lies between a third of the
      group's median and three times it. */
  lemma MedianVerdict(g: seq<real>, p: real)
    requires p in g
    ensures g != []
    ensures MedianLabel(g, Some(p)) == Ok <==> Median(g).value / 3.0 <= p <= Median(g).value * 3.0
  {
  }

  /** When every price of a group is the same, the median is that price,
      and the priced rows are OK exactly when it is not negative. */
  lemma ConstantGroupMedian<K>(rows: seq<PriceRow<K>>, k: K, c: real, i: nat)
    requires forall j | 0 <= j < |rows| && rows[j].category == Some(k) && rows[j].price.Some? ::
      rows[j].price.value == c
    requires i < |rows| && rows[i].category == Some(k) && rows[i].price.Some?
    ensures MedianLabels(rows)[i] == Some(Ok) <==> c >= 0.0
  {
    var g := GroupPrices(rows, k);
    InGroup(rows, i, k);
    forall m | 0 <= m < |g|
      ensures g[m] == c
    {
      FromGroup(rows, k, g[m]);
    }
    MedianIsHalfQuantile(g);
    QuantileConstant(g, 0.5, c);
    RowMedian(rows, i, k);
  }

  /** Both bounds belong to the band: three times the median is OK, and so
      is a third of it, as long as the median is not negative. */
  lemma MedianBoundsIncluded(prices: seq<real>)
    requires prices != [] && Median(prices).value >= 0.0
    ensures MedianLabel(prices, Some(3.0 * Median(prices).value)) == Ok
    ensures MedianLabel(prices, Some(Median(prices).value / 3.0)) == Ok
    ensures MedianLabel(prices, Some(Median(prices).value)) == Ok
  {
  }

  /** A negative median leaves the band empty: every price is an outlier. */
  lemma NegativeMedianNoneOk(prices: seq<real>, p: real)
    requires prices != [] && Median(prices).value < 0.0
    ensures MedianLabel(prices, Some(p)) == OutlierMediana
  {
  }

  // ---- row order

  /** The quantile label of a row depends on the rows present, not on
      their order. */
  lemma BandOrderFree<K>(a: seq<PriceRow<K>>, b: seq<PriceRow<K>>, i: nat, j: nat)
    requires multiset(a) == multiset(b)
    requires i < |a| && j < |b| && a[i] == b[j]
    ensures QuantileLabels(a)[i] == QuantileLabels(b)[j]
  {
    if a[i].category.Some? {
      var k := a[i].category.value;
      GroupsAlike(a, b, k);
      RowBand(a, i, k);
      RowBand(b, j, k);
    }
  }

  /** The median label of a row depends on the rows present, not on their
      order. */
  lemma MedianOrderFree<K>(a: seq<PriceRow<K>>, b: seq<PriceRow<K>>, i: nat, j: nat)
    requires multiset(a) == multiset(b)
    requires i < |a| && j < |b| && a[i] == b[j]
    ensures MedianLabels(a)[i] == MedianLabels(b)[j]
  {
    if a[i].category.Some? {
      var k := a[i].category.value;
      GroupsAlike(a, b, k);
      RowMedian(a, i, k);
      RowMedian(b, j, k);
    }
  }

  /** Reordered rows give every group the same quantiles and median. */
  lemma GroupsAlike<K>(a: seq<PriceRow<K>>, b: seq<PriceRow<K>>, k: K)
    requires multiset(a) == multiset(b)
    ensures var ga, gb := GroupPrices(a, k), GroupPrices(b, k);
      (ga == [] <==> gb == []) &&
      Quantile(ga, 0.05) == Quantile(gb, 0.05) && Quantile(ga, 0.95) == Quantile(gb, 0.95) &&
      Median(ga) == Median(gb)
  {
    var ga, gb := GroupPrices(a, k), GroupPrices(b, k);
    GroupPermutation(a, b, k);
    OrderFree(ga, gb, 0.05);
    OrderFree(ga, gb, 0.95);
    assert |ga| == |multiset(ga)| == |multiset(gb)| == |gb|;
  }
}
