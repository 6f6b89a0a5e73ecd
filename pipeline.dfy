/** The script body once a sheet is loaded: headers stripped, the columns
    resolved by alias, the sales filter, the extracted-quantity columns,
    the content verdict and the two price labels, each written into the
    data frame in turn. */
module Pipeline {
  import opened Options
  import opened Chars
  import opened Numbers
  import opened Cells
  import opened Tables
  import opened Columns
  import opened Quantity
  import opened Content
  import opened PriceRules
  import opened Stats

  // ---- the aliases each column is looked up by (lines 153-157)

  /** One alias list per column the script looks up. */
  datatype Aliases = Aliases(sales: seq<string>, description: seq<string>, content: seq<string>,
                             price: seq<string>, category: seq<string>)

  const ScriptAliases: Aliases := Aliases(
    ["Imp Vta (Ult.24 Meses)", "Vendas em volume"],
    ["Descripcion", "PROD_NOMBRE_ORIGINAL", "Nome SKU"],
    ["Contenido", "Qtd Conteúdo SKU"],
    ["Precio KG/LT", "Preço convertido kg/lt R$", "Preço kg/lt"],
    ["Est Mer 7 (Subcategoria)", "NIVEL1"])

  predicate NoEmptyAlias(aliases: seq<string>) {
    forall n | 0 <= n < |aliases| :: aliases[n] != []
  }

  /** The script's aliases are all non-empty. */
  lemma ScriptAliasesNonEmpty()
    ensures NoEmptyAlias(ScriptAliases.description) && NoEmptyAlias(ScriptAliases.content)
    ensures NoEmptyAlias(ScriptAliases.price) && NoEmptyAlias(ScriptAliases.category)
  {
  }

  // ---- step 1: `df.columns = df.columns.str.strip()`

  function StripAll(hs: seq<string>): (r: seq<string>)
    ensures |r| == |hs|
  {
    seq(|hs|, i requires 0 <= i < |hs| => Strip(TextBlanks, hs[i]))
  }

  function Stripped(t: Table): (r: Table)
    requires Rectangular(t)
    ensures Rectangular(r) && r.rows == t.rows
  {
    Table(StripAll(t.headers), t.rows)
  }

  // ---- step 2: the columns the script works on

  /** The resolved column names; the sales column is optional. */
  datatype Roles = Roles(sales: Option<string>, description: string, content: string,
                         price: string, category: string)

  /** A resolved name is truthy when it is found and not empty. */
  predicate Truthy(o: Option<string>) {
    o.Some? && o.value != []
  }

  predicate RolesIn(roles: Roles, hs: seq<string>) {
    roles.description in hs && roles.content in hs && roles.price in hs && roles.category in hs
  }

  /** A found column is one of the headers. */
  lemma FoundIsHeader(aliases: seq<string>, hs: seq<string>)
    requires Resolve(aliases, hs).Some?
    ensures Resolve(aliases, hs).value in hs
  {
    Columns.Found(aliases, hs);
  }

  /** Lines 153-161: the five lookups, and `None` where the script stops
      because one of the four required names is not truthy. */
  function RolesOf(hs: seq<string>, a: Aliases): (r: Option<Roles>)
    ensures r.Some? ==> RolesIn(r.value, hs)
    ensures r.Some? ==> r.value.sales == Resolve(a.sales, hs)
  {
    var d := Resolve(a.description, hs);
    var c := Resolve(a.content, hs);
    var p := Resolve(a.price, hs);
    var k := Resolve(a.category, hs);
    if Truthy(d) && Truthy(c) && Truthy(p) && Truthy(k) then
      FoundIsHeader(a.description, hs);
      FoundIsHeader(a.content, hs);
      FoundIsHeader(a.price, hs);
      FoundIsHeader(a.category, hs);
      Some(Roles(Resolve(a.sales, hs), d.value, c.value, p.value, k.value))
    else
      None
  }

  /** No alias of the list occurs, case aside, in any header. */
  predicate Unmatched(aliases: seq<string>, hs: seq<string>) {
    forall n, m | 0 <= n < |aliases| && 0 <= m < |hs| :: !Matches(aliases[n], hs[m])
  }

  /** For a list of non-empty aliases, the name is not truthy exactly when
      no alias matches any header. */
  lemma NotTruthy(aliases: seq<string>, hs: seq<string>)
    requires NoEmptyAlias(aliases)
    ensures !Truthy(Resolve(aliases, hs)) <==> Unmatched(aliases, hs)
  {
    if Resolve(aliases, hs).Some? {
      FoundNonEmpty(aliases, hs);
    }
    NotFound(aliases, hs);
  }

  /** The script stops exactly when one of the description, content, price
      and category alias lists matches no header; the sales column may be
      missing. */
  lemma Stops(hs: seq<string>, a: Aliases)
    requires NoEmptyAlias(a.description) && NoEmptyAlias(a.content)
    requires NoEmptyAlias(a.price) && NoEmptyAlias(a.category)
    ensures RolesOf(hs, a).None? <==>
      Unmatched(a.description, hs) || Unmatched(a.content, hs) ||
      Unmatched(a.price, hs) || Unmatched(a.category, hs)
  {
    NotTruthy(a.description, hs);
    NotTruthy(a.content, hs);
    NotTruthy(a.price, hs);
    NotTruthy(a.category, hs);
  }

  // ---- step 3: the sales filter (lines 166-169)

  /** `pd.to_numeric(..., errors="coerce")` on one cell: numbers stay,
      readable text becomes its number, anything else becomes missing. */
  function ToNumeric(c: Cell): (r: Cell)
    ensures r.Blank? || r.Num?
    ensures c.Num? ==> r == c
    ensures c.Blank? ==> r.Blank?
    ensures c.Text? ==> (r.Num? <==> ParseFloat(c.s).Some?)
    ensures c.Text? && ParseFloat(c.s).Some? ==> r == Num(ParseFloat(c.s).value)
  {
    match c
    case Text(s) => (match ParseFloat(s) case None => Blank case Some(x) => Num(x))
    case _ => c
  }

  function Coerced(cs: seq<Cell>): (r: seq<Cell>)
    ensures |r| == |cs|
  {
    seq(|cs|, k requires 0 <= k < |cs| => ToNumeric(cs[k]))
  }

  /** `row[i] > 0`: false for a missing value. */
  predicate Sells(row: seq<Cell>, i: nat) {
    i < |row| && row[i].Num? && row[i].x > 0.0
  }

  /** `df[df[col] > 0]`: the rows selling something, in their order. */
  function Selling(rows: seq<seq<Cell>>, i: nat): (r: seq<seq<Cell>>)
    ensures |r| <= |rows|
    ensures forall k | 0 <= k < |r| :: r[k] in rows
    ensures forall row :: row in r <==> row in rows && Sells(row, i)
  {
    if rows == [] then []
    else if Sells(rows[0], i) then [rows[0]] + Selling(rows[1..], i)
    else Selling(rows[1..], i)
  }

  /** Selection distributes over concatenation: the selected rows keep
      their order, and nothing is merged or dropped beyond the non-selling
      rows. */
  lemma {:induction false} SellingAppend(a: seq<seq<Cell>>, b: seq<seq<Cell>>, i: nat)
    ensures Selling(a + b, i) == Selling(a, i) + Selling(b, i)
  {
    if a == [] {
      assert a + b == b;
    } else {
      assert (a + b)[1..] == a[1..] + b;
      SellingAppend(a[1..], b, i);
    }
  }

  /** One row is kept exactly when it sells something. */
  lemma SellingOne(row: seq<Cell>, i: nat)
    ensures Selling([row], i) == if Sells(row, i) then [row] else []
  {
    assert [row][1..] == [];
  }

  /** A row with its sales cell coerced. */
  function Coerce(row: seq<Cell>, i: nat): (r: seq<Cell>)
    requires i < |row|
    ensures |r| == |row| && r[i] == ToNumeric(row[i])
    ensures forall j | 0 <= j < |row| && j != i :: r[j] == row[j]
  {
    row[i := ToNumeric(row[i])]
  }

  /** Lines 168-169 on a table whose sales column is `name`. */
  function Filtered(t: Table, name: string): (r: Table)
    requires Rectangular(t) && name in t.headers
    ensures Rectangular(r) && r.headers == t.headers && |r.rows| <= |t.rows|
  {
    var c := WithColumn(t, name, Coerced(Column(t, name)));
    var r := Table(c.headers, Selling(c.rows, IndexOf(c.headers, name)));
    forall k | 0 <= k < |r.rows|
      ensures |r.rows[k]| == |r.headers|
    {
      var j :| 0 <= j < |c.rows| && c.rows[j] == r.rows[k];
    }
    r
  }

  /** The filter keeps, in their order and with duplicates, the rows whose
      sales value coerces to a positive number, each with that value coerced;
      so every kept sales value is a positive number. */
  lemma FilterKeeps(t: Table, name: string)
    requires Rectangular(t) && name in t.headers
    ensures var i := IndexOf(t.headers, name);
      Filtered(t, name).rows == Selling(seq(|t.rows|, k requires 0 <= k < |t.rows| => Coerce(t.rows[k], i)), i)
    ensures forall k | 0 <= k < |t.rows| ::
      (Coerce(t.rows[k], IndexOf(t.headers, name)) in Filtered(t, name).rows <==>
        ToNumeric(t.rows[k][IndexOf(t.headers, name)]).Num? && ToNumeric(t.rows[k][IndexOf(t.headers, name)]).x > 0.0)
    ensures forall k | 0 <= k < |Filtered(t, name).rows| ::
      Column(Filtered(t, name), name)[k].Num? && Column(Filtered(t, name), name)[k].x > 0.0
  {
    var i := IndexOf(t.headers, name);
    var c := WithColumn(t, name, Coerced(Column(t, name)));
    var rs := seq(|t.rows|, k requires 0 <= k < |t.rows| => Coerce(t.rows[k], i));
    var f := Filtered(t, name);
    assert c.rows == rs by {
      forall k | 0 <= k < |t.rows|
        ensures c.rows[k] == rs[k]
      {
        assert c.rows[k] == t.rows[k][i := Coerced(Column(t, name))[k]];
      }
    }
    assert f.rows == Selling(rs, i);
    forall k | 0 <= k < |f.rows|
      ensures Column(f, name)[k].Num? && Column(f, name)[k].x > 0.0
    {
      assert f.rows[k] in rs;
    }
    forall k | 0 <= k < |t.rows|
      ensures Coerce(t.rows[k], i) in f.rows <==>
        ToNumeric(t.rows[k][i]).Num? && ToNumeric(t.rows[k][i]).x > 0.0
    {
      assert rs[k] == Coerce(t.rows[k], i);
      assert Sells(rs[k], i) <==> ToNumeric(t.rows[k][i]).Num? && ToNumeric(t.rows[k][i]).x > 0.0;
    }
  }

  // ---- step 4: the extracted-quantity columns (lines 171-173)

  /** `extrair_peso` of a description cell. A number cell is printed by
      `str()` with digits, `.`, signs, `e`, `inf` or `nan`, which never
      match (`QuantityFacts.FloatTextNoMatch`). */
  function Describe(c: Cell): (x: Extraction)
    ensures c.Blank? || c.Num? ==> x == NoMatch
    ensures c.Text? ==> x == Extract(Some(c.s))
  {
    match c
    case Blank => Extract(None)
    case Num(_) => NoMatch
    case Text(s) => Extract(Some(s))
  }

  function MatchedCell(x: Extraction): Cell {
    match x
    case NoMatch => Blank
    case Found(m, _) => Text(m)
  }

  function GramsCell(x: Extraction): Cell {
    match x
    case NoMatch => Blank
    case Found(_, g) => Num(g as real)
  }

  function Extracted(t: Table, description: string): (r: Table)
    requires Rectangular(t) && description in t.headers
    ensures Rectangular(r) && |r.rows| == |t.rows|
    ensures forall h | h in t.headers :: h in r.headers
    ensures "QtdEmbalagem" in r.headers && "QtdEmbalagemGramas" in r.headers
  {
    var d := Column(t, description);
    var xs := seq(|d|, k requires 0 <= k < |d| => Describe(d[k]));
    var e := WithColumn(t, "QtdEmbalagem", seq(|xs|, k requires 0 <= k < |xs| => MatchedCell(xs[k])));
    WithColumn(e, "QtdEmbalagemGramas", seq(|xs|, k requires 0 <= k < |xs| => GramsCell(xs[k])))
  }

  /** Row `k` of the quantity columns holds what `extrair_peso` gives for
      row `k`'s description: the matched text and its grams, or two missing
      cells. */
  lemma ExtractedAt(t: Table, description: string, k: nat)
    requires Rectangular(t) && description in t.headers && k < |t.rows|
    ensures var x := Describe(Column(t, description)[k]);
      Column(Extracted(t, description), "QtdEmbalagem")[k] == (if x.Found? then Text(x.matched) else Blank) &&
      Column(Extracted(t, description), "QtdEmbalagemGramas")[k] == (if x.Found? then Num(x.grams as real) else Blank)
  {
    var d := Column(t, description);
    var xs := seq(|d|, j requires 0 <= j < |d| => Describe(d[j]));
    var e := WithColumn(t, "QtdEmbalagem", seq(|xs|, j requires 0 <= j < |xs| => MatchedCell(xs[j])));
    OtherColumns(e, "QtdEmbalagemGramas", seq(|xs|, j requires 0 <= j < |xs| => GramsCell(xs[j])), "QtdEmbalagem");
  }

  /** The quantity columns leave every other column as it was. */
  lemma ExtractedOthers(t: Table, description: string, h: string)
    requires Rectangular(t) && description in t.headers && h in t.headers
    requires h != "QtdEmbalagem" && h != "QtdEmbalagemGramas"
    ensures h in Extracted(t, description).headers
    ensures Column(Extracted(t, description), h) == Column(t, h)
  {
    var d := Column(t, description);
    var xs := seq(|d|, j requires 0 <= j < |d| => Describe(d[j]));
    var e := WithColumn(t, "QtdEmbalagem", seq(|xs|, j requires 0 <= j < |xs| => MatchedCell(xs[j])));
    OtherColumns(t, "QtdEmbalagem", seq(|xs|, j requires 0 <= j < |xs| => MatchedCell(xs[j])), h);
    OtherColumns(e, "QtdEmbalagemGramas", seq(|xs|, j requires 0 <= j < |xs| => GramsCell(xs[j])), h);
  }

  // ---- step 5: the content verdict (lines 186-189)

  /** The grams read back from the `QtdEmbalagemGramas` column, which holds
      whole numbers or blanks. */
  function CellGrams(c: Cell): (g: Option<int>)
    ensures c.Blank? ==> g.None?
  {
    match c
    case Num(x) => Some(x.Floor)
    case _ => None
  }

  /** Reading the grams column back gives the extracted count. */
  lemma GramsRoundTrip(x: Extraction)
    ensures CellGrams(GramsCell(x)) == (if x.Found? then Some(x.grams) else None)
  {
  }

  function ContentCells(grams: seq<Cell>, declared: seq<Cell>): (r: seq<Cell>)
    requires |grams| == |declared|
    ensures |r| == |grams|
  {
    seq(|grams|, k requires 0 <= k < |grams| => Text(LabelText(Reconcile(CellGrams(grams[k]), declared[k]))))
  }

  function WithContentVerdicts(t: Table, content: string): (r: Table)
    requires Rectangular(t) && content in t.headers && "QtdEmbalagemGramas" in t.headers
    ensures Rectangular(r) && |r.rows| == |t.rows|
    ensures forall h | h in t.headers :: h in r.headers
  {
    WithColumn(t, "ValidacaoContenido", ContentCells(Column(t, "QtdEmbalagemGramas"), Column(t, content)))
  }

  /** Row `k`'s verdict is `comparar_contenido` of row `k`'s grams, read
      back from the grams column, and its declared content. */
  lemma ContentVerdictAt(t: Table, content: string, k: nat)
    requires Rectangular(t) && content in t.headers && "QtdEmbalagemGramas" in t.headers && k < |t.rows|
    ensures Column(WithContentVerdicts(t, content), "ValidacaoContenido")[k] ==
      Text(LabelText(Reconcile(CellGrams(Column(t, "QtdEmbalagemGramas")[k]), Column(t, content)[k])))
  {
  }

  /** After the quantity columns are written, row `k`'s verdict compares
      the grams `extrair_peso` found in row `k`'s description with row
      `k`'s declared content. */
  lemma RowContentVerdict(t: Table, description: string, content: string, k: nat)
    requires Rectangular(t) && description in t.headers && content in t.headers && k < |t.rows|
    ensures var e, x := Extracted(t, description), Describe(Column(t, description)[k]);
      Column(WithContentVerdicts(e, content), "ValidacaoContenido")[k] ==
        Text(LabelText(Reconcile(if x.Found? then Some(x.grams) else None, Column(e, content)[k])))
  {
    var e := Extracted(t, description);
    ExtractedAt(t, description, k);
    ContentVerdictAt(e, content, k);
    GramsRoundTrip(Describe(Column(t, description)[k]));
  }

  /** Every content verdict is "OK" or "PROBLEMA". */
  lemma ContentVerdicts(t: Table, content: string)
    requires Rectangular(t) && content in t.headers && "QtdEmbalagemGramas" in t.headers
    ensures forall k | 0 <= k < |t.rows| ::
      Column(WithContentVerdicts(t, content), "ValidacaoContenido")[k] in {Text("OK"), Text("PROBLEMA")}
  {
  }

  // ---- step 6: the price labels (lines 190-191)

  /** The `groupby` key of a category cell: a missing one is dropped. */
  function Key(c: Cell): (k: Option<Cell>)
    ensures k.None? <==> c.Blank?
  {
    if c.Blank? then None else Some(c)
  }

  /** A price cell as the quantile and the median see it: a number, or
      missing. */
  function PriceOf(c: Cell): (p: Option<real>)
    ensures p.Some? <==> c.Num?
  {
    if c.Num? then Some(c.x) else None
  }

  function PriceRows(t: Table, price: string, category: string): (r: seq<PriceRow<Cell>>)
    requires Rectangular(t) && price in t.headers && category in t.headers
    ensures |r| == |t.rows|
  {
    var p, c := Column(t, price), Column(t, category);
    seq(|t.rows|, k requires 0 <= k < |t.rows| => PriceRow(Key(c[k]), PriceOf(p[k])))
  }

  /** A label written into the sheet; no label leaves the cell missing. */
  function LabelCell(l: Option<Label>): (c: Cell)
    ensures c.Blank? <==> l.None?
  {
    match l
    case None => Blank
    case Some(v) => Text(LabelText(v))
  }

  function LabelCells(ls: seq<Option<Label>>): (r: seq<Cell>)
    ensures |r| == |ls|
  {
    seq(|ls|, k requires 0 <= k < |ls| => LabelCell(ls[k]))
  }

  function WithPriceLabels(t: Table, price: string, category: string): (r: Table)
    requires Rectangular(t) && price in t.headers && category in t.headers
    ensures Rectangular(r) && |r.rows| == |t.rows|
    ensures forall h | h in t.headers :: h in r.headers
  {
    WithColumn(t, "ValidacionPrecio", LabelCells(QuantileLabels(PriceRows(t, price, category))))
  }

  function WithMedianLabels(t: Table, price: string, category: string): (r: Table)
    requires Rectangular(t) && price in t.headers && category in t.headers
    ensures Rectangular(r) && |r.rows| == |t.rows|
    ensures forall h | h in t.headers :: h in r.headers
  {
    WithColumn(t, "ValidacionPrecioMediana", LabelCells(MedianLabels(PriceRows(t, price, category))))
  }

  /** `p` lies within the 5% and 95% quantiles of the group's prices. */
  predicate InBand(g: seq<real>, p: real) {
    g != [] && Quantile(g, 0.05).value <= p <= Quantile(g, 0.95).value
  }

  /** `p` lies within a third and three times the group's median. */
  predicate InMedianBounds(g: seq<real>, p: real) {
    g != [] && Median(g).value / 3.0 <= p <= Median(g).value * 3.0
  }

  /** The quantile label of a row: none for a missing category; otherwise
      "OK" exactly when its price is a number within the 5% and 95%
      quantiles of the numeric prices of the rows of its category. */
  lemma PriceVerdict(t: Table, price: string, category: string, k: nat)
    requires Rectangular(t) && price in t.headers && category in t.headers && k < |t.rows|
    ensures Column(t, category)[k].Blank? ==>
      Column(WithPriceLabels(t, price, category), "ValidacionPrecio")[k].Blank?
    ensures !Column(t, category)[k].Blank? ==>
      (Column(WithPriceLabels(t, price, category), "ValidacionPrecio")[k] == Text("OK") <==>
        Column(t, price)[k].Num? &&
        InBand(GroupPrices(PriceRows(t, price, category), Column(t, category)[k]), Column(t, price)[k].x))
  {
    var rows := PriceRows(t, price, category);
    var cat := Column(t, category)[k];
    PriceLabelAt(t, price, category, k);
    if !cat.Blank? {
      RowBand(rows, k, cat);
      InGroup(rows, k, cat);
      LabelTextInjective(Ok, Outlier);
    }
  }

  /** The quantile label cell of row `k` is the label of its price row. */
  lemma PriceLabelAt(t: Table, price: string, category: string, k: nat)
    requires Rectangular(t) && price in t.headers && category in t.headers && k < |t.rows|
    ensures PriceRows(t, price, category)[k] == PriceRow(Key(Column(t, category)[k]), PriceOf(Column(t, price)[k]))
    ensures Column(WithPriceLabels(t, price, category), "ValidacionPrecio")[k] ==
      LabelCell(QuantileLabels(PriceRows(t, price, category))[k])
  {
  }

  /** The median label of a row: none for a missing category; otherwise
      "OK" exactly when its price is a number within a third and three
      times the median of the numeric prices of the rows of its category. */
  lemma MedianPriceVerdict(t: Table, price: string, category: string, k: nat)
    requires Rectangular(t) && price in t.headers && category in t.headers && k < |t.rows|
    ensures Column(t, category)[k].Blank? ==>
      Column(WithMedianLabels(t, price, category), "ValidacionPrecioMediana")[k].Blank?
    ensures !Column(t, category)[k].Blank? ==>
      (Column(WithMedianLabels(t, price, category), "ValidacionPrecioMediana")[k] == Text("OK") <==>
        Column(t, price)[k].Num? &&
        InMedianBounds(GroupPrices(PriceRows(t, price, category), Column(t, category)[k]), Column(t, price)[k].x))
  {
    var rows := PriceRows(t, price, category);
    var cat := Column(t, category)[k];
    MedianLabelAt(t, price, category, k);
    if !cat.Blank? {
      RowMedian(rows, k, cat);
      InGroup(rows, k, cat);
      LabelTextInjective(Ok, OutlierMediana);
    }
  }

  /** The median label cell of row `k` is the label of its price row. */
  lemma MedianLabelAt(t: Table, price: string, category: string, k: nat)
    requires Rectangular(t) && price in t.headers && category in t.headers && k < |t.rows|
    ensures PriceRows(t, price, category)[k] == PriceRow(Key(Column(t, category)[k]), PriceOf(Column(t, price)[k]))
    ensures Column(WithMedianLabels(t, price, category), "ValidacionPrecioMediana")[k] ==
      LabelCell(MedianLabels(PriceRows(t, price, category))[k])
  {
  }

  // ---- the whole run

  /** Lines 166-169 on the stripped sheet: the sales filter, where the sales
      column is found. */
  function SalesFiltered(s: Table, roles: Roles): (r: Table)
    requires Rectangular(s) && RolesIn(roles, s.headers)
    ensures Rectangular(r) && r.headers == s.headers && |r.rows| <= |s.rows|
    ensures roles.sales.None? || roles.sales.value !in s.headers ==> r == s
  {
    if roles.sales.Some? && roles.sales.value in s.headers then Filtered(s, roles.sales.value) else s
  }

  /** Lines 171-191 on the filtered sheet `f`: the quantity columns, the
      content verdict and the two price labels, one column per row. */
  function Completed(f: Table, roles: Roles): (r: Table)
    requires Rectangular(f) && RolesIn(roles, f.headers)
    ensures Rectangular(r) && |r.rows| == |f.rows|
  {
    var e := Extracted(f, roles.description);
    var c := WithContentVerdicts(e, roles.content);
    var p := WithPriceLabels(c, roles.price, roles.category);
    WithMedianLabels(p, roles.price, roles.category)
  }

  /** The sheet after the run of lines 148-192 on `s`, whose headers are
      already stripped and whose columns are resolved as `roles`. */
  function Annotated(s: Table, roles: Roles): (r: Table)
    requires Rectangular(s) && RolesIn(roles, s.headers)
    ensures Rectangular(r)
    ensures |r.rows| == |SalesFiltered(s, roles).rows|
    ensures roles.sales.None? ==> |r.rows| == |s.rows|
    ensures |r.rows| <= |s.rows|
  {
    Completed(SalesFiltered(s, roles), roles)
  }

  /** The price labels leave the quantity and content columns as they were. */
  lemma LabelsKeep(c: Table, roles: Roles, h: string)
    requires Rectangular(c) && RolesIn(roles, c.headers) && h in c.headers
    requires h != "ValidacionPrecio" && h != "ValidacionPrecioMediana"
    ensures h in WithMedianLabels(WithPriceLabels(c, roles.price, roles.category), roles.price, roles.category).headers
    ensures Column(WithMedianLabels(WithPriceLabels(c, roles.price, roles.category), roles.price, roles.category), h) ==
      Column(c, h)
  {
    var p := WithPriceLabels(c, roles.price, roles.category);
    OtherColumns(c, "ValidacionPrecio", LabelCells(QuantileLabels(PriceRows(c, roles.price, roles.category))), h);
    OtherColumns(p, "ValidacionPrecioMediana", LabelCells(MedianLabels(PriceRows(p, roles.price, roles.category))), h);
  }

  /** In the annotated sheet, row `k` of the quantity columns holds what
      `extrair_peso` gives for row `k` of the filtered sheet's description,
      and row `k`'s content verdict compares those grams with the row's
      declared content. */
  lemma AnnotatedRow(s: Table, roles: Roles, k: nat)
    requires Rectangular(s) && RolesIn(roles, s.headers) && k < |SalesFiltered(s, roles).rows|
    ensures var f := SalesFiltered(s, roles);
      var x := Describe(Column(f, roles.description)[k]);
      Column(Annotated(s, roles), "QtdEmbalagem")[k] == (if x.Found? then Text(x.matched) else Blank) &&
      Column(Annotated(s, roles), "QtdEmbalagemGramas")[k] == (if x.Found? then Num(x.grams as real) else Blank) &&
      Column(Annotated(s, roles), "ValidacaoContenido")[k] ==
        Text(LabelText(Reconcile(if x.Found? then Some(x.grams) else None,
                                 Column(Extracted(f, roles.description), roles.content)[k])))
  {
    var f := SalesFiltered(s, roles);
    var e := Extracted(f, roles.description);
    var c := WithContentVerdicts(e, roles.content);
    ExtractedAt(f, roles.description, k);
    RowContentVerdict(f, roles.description, roles.content, k);
    OtherColumns(e, "ValidacaoContenido", ContentCells(Column(e, "QtdEmbalagemGramas"), Column(e, roles.content)), "QtdEmbalagem");
    OtherColumns(e, "ValidacaoContenido", ContentCells(Column(e, "QtdEmbalagemGramas"), Column(e, roles.content)), "QtdEmbalagemGramas");
    LabelsKeep(c, roles, "QtdEmbalagem");
    LabelsKeep(c, roles, "QtdEmbalagemGramas");
    LabelsKeep(c, roles, "ValidacaoContenido");
  }

  /** The columns the script writes before it reads the prices again. */
  predicate WrittenFirst(h: string) {
    h == "QtdEmbalagem" || h == "QtdEmbalagemGramas" || h == "ValidacaoContenido" || h == "ValidacionPrecio"
  }

  /** Writing the quantity columns and the content verdict leaves every
      other column of the filtered sheet as it was. */
  lemma ContentKeeps(f: Table, roles: Roles, h: string)
    requires Rectangular(f) && RolesIn(roles, f.headers) && h in f.headers && !WrittenFirst(h)
    ensures h in WithContentVerdicts(Extracted(f, roles.description), roles.content).headers
    ensures Column(WithContentVerdicts(Extracted(f, roles.description), roles.content), h) == Column(f, h)
  {
    var e := Extracted(f, roles.description);
    ExtractedOthers(f, roles.description, h);
    OtherColumns(e, "ValidacaoContenido", ContentCells(Column(e, "QtdEmbalagemGramas"), Column(e, roles.content)), h);
  }

  /** Labels written over a sheet `c` whose price and category columns are
      those of `f` are the labels of `f`'s rows. */
  lemma BandFrom(c: Table, f: Table, price: string, category: string, k: nat)
    requires Rectangular(c) && price in c.headers && category in c.headers
    requires Rectangular(f) && price in f.headers && category in f.headers && k < |f.rows|
    requires Column(c, price) == Column(f, price) && Column(c, category) == Column(f, category)
    ensures var cat, x := Column(f, category)[k], Column(f, price)[k];
      (cat.Blank? ==> Column(WithPriceLabels(c, price, category), "ValidacionPrecio")[k].Blank?) &&
      (!cat.Blank? ==> (Column(WithPriceLabels(c, price, category), "ValidacionPrecio")[k] == Text("OK") <==>
        x.Num? && InBand(GroupPrices(PriceRows(f, price, category), cat), x.x)))
  {
    assert PriceRows(c, price, category) == PriceRows(f, price, category);
    PriceVerdict(c, price, category, k);
  }

  /** The same for the median labels. */
  lemma MedianFrom(c: Table, f: Table, price: string, category: string, k: nat)
    requires Rectangular(c) && price in c.headers && category in c.headers
    requires Rectangular(f) && price in f.headers && category in f.headers && k < |f.rows|
    requires Column(c, price) == Column(f, price) && Column(c, category) == Column(f, category)
    ensures var cat, x := Column(f, category)[k], Column(f, price)[k];
      (cat.Blank? ==> Column(WithMedianLabels(c, price, category), "ValidacionPrecioMediana")[k].Blank?) &&
      (!cat.Blank? ==> (Column(WithMedianLabels(c, price, category), "ValidacionPrecioMediana")[k] == Text("OK") <==>
        x.Num? && InMedianBounds(GroupPrices(PriceRows(f, price, category), cat), x.x)))
  {
    assert PriceRows(c, price, category) == PriceRows(f, price, category);
    MedianPriceVerdict(c, price, category, k);
  }

  /** The quantile label of row `k` of the annotated sheet, in terms of
      the filtered sheet. */
  lemma AnnotatedBand(s: Table, roles: Roles, k: nat)
    requires Rectangular(s) && RolesIn(roles, s.headers) && k < |SalesFiltered(s, roles).rows|
    requires !WrittenFirst(roles.price) && !WrittenFirst(roles.category)
    ensures var f, a := SalesFiltered(s, roles), Annotated(s, roles);
      var cat, price := Column(f, roles.category)[k], Column(f, roles.price)[k];
      (cat.Blank? ==> Column(a, "ValidacionPrecio")[k].Blank?) &&
      (!cat.Blank? ==> (Column(a, "ValidacionPrecio")[k] == Text("OK") <==>
        price.Num? && InBand(GroupPrices(PriceRows(f, roles.price, roles.category), cat), price.x)))
  {
    var f := SalesFiltered(s, roles);
    var c := WithContentVerdicts(Extracted(f, roles.description), roles.content);
    var p := WithPriceLabels(c, roles.price, roles.category);
    ContentKeeps(f, roles, roles.price);
    ContentKeeps(f, roles, roles.category);
    BandFrom(c, f, roles.price, roles.category, k);
    OtherColumns(p, "ValidacionPrecioMediana", LabelCells(MedianLabels(PriceRows(p, roles.price, roles.category))), "ValidacionPrecio");
  }

  /** The median label of row `k` of the annotated sheet, in terms of the
      filtered sheet. */
  lemma AnnotatedMedian(s: Table, roles: Roles, k: nat)
    requires Rectangular(s) && RolesIn(roles, s.headers) && k < |SalesFiltered(s, roles).rows|
    requires !WrittenFirst(roles.price) && !WrittenFirst(roles.category)
    ensures var f, a := SalesFiltered(s, roles), Annotated(s, roles);
      var cat, price := Column(f, roles.category)[k], Column(f, roles.price)[k];
      (cat.Blank? ==> Column(a, "ValidacionPrecioMediana")[k].Blank?) &&
      (!cat.Blank? ==> (Column(a, "ValidacionPrecioMediana")[k] == Text("OK") <==>
        price.Num? && InMedianBounds(GroupPrices(PriceRows(f, roles.price, roles.category), cat), price.x)))
  {
    var f := SalesFiltered(s, roles);
    var c := WithContentVerdicts(Extracted(f, roles.description), roles.content);
    var labels := LabelCells(QuantileLabels(PriceRows(c, roles.price, roles.category)));
    var p := WithPriceLabels(c, roles.price, roles.category);
    ContentKeeps(f, roles, roles.price);
    ContentKeeps(f, roles, roles.category);
    OtherColumns(c, "ValidacionPrecio", labels, roles.price);
    OtherColumns(c, "ValidacionPrecio", labels, roles.category);
    MedianFrom(p, f, roles.price, roles.category, k);
  }

  /** In the annotated sheet, row `k`'s two price labels are those of the
      filtered sheet: none for a missing category; otherwise "OK" exactly
      when row `k`'s price is a number within the 5% and 95% quantiles of
      its category (quantile label), and within a third and three times its
      category's median (median label). This holds whenever the price and
      category columns are not among those the script writes first. */
  lemma AnnotatedPrices(s: Table, roles: Roles, k: nat)
    requires Rectangular(s) && RolesIn(roles, s.headers) && k < |SalesFiltered(s, roles).rows|
    ensures !WrittenFirst(roles.price) && !WrittenFirst(roles.category) ==>
      var f, a := SalesFiltered(s, roles), Annotated(s, roles);
      var cat, price := Column(f, roles.category)[k], Column(f, roles.price)[k];
      var g := GroupPrices(PriceRows(f, roles.price, roles.category), cat);
      (cat.Blank? ==> Column(a, "ValidacionPrecio")[k].Blank? && Column(a, "ValidacionPrecioMediana")[k].Blank?) &&
      (!cat.Blank? ==>
        (Column(a, "ValidacionPrecio")[k] == Text("OK") <==> price.Num? && InBand(g, price.x)) &&
        (Column(a, "ValidacionPrecioMediana")[k] == Text("OK") <==> price.Num? && InMedianBounds(g, price.x)))
  {
    if !WrittenFirst(roles.price) && !WrittenFirst(roles.category) {
      AnnotatedBand(s, roles, k);
      AnnotatedMedian(s, roles, k);
    }
  }

  /** How the run on a loaded sheet ends: stopped at line 161 with the
      headers stripped; raised at line 171, where assigning the quantity
      pair of an empty filtered frame to two columns fails ("Columns must
      be same length as key"), with the frame as it was then; or done. */
  datatype Run = Stopped(stripped: Table) | Raised(filtered: Table) | Done(sheet: Table)

  /** The run on a loaded sheet, looking its columns up by the aliases `a`
      (the script's own are `ScriptAliases`). */
  function Annotate(t: Table, a: Aliases): (r: Run)
    requires Rectangular(t)
    ensures r.Stopped? <==> RolesOf(Stripped(t).headers, a).None?
    ensures r.Stopped? ==> r.stripped == Stripped(t)
    ensures r.Raised? ==> Rectangular(r.filtered) && r.filtered.rows == []
    ensures r.Done? ==> Rectangular(r.sheet) && r.sheet.rows != []
  {
    var s := Stripped(t);
    match RolesOf(s.headers, a)
    case None => Stopped(s)
    case Some(roles) =>
      var f := SalesFiltered(s, roles);
      if f.rows == [] then Raised(f) else Done(Annotated(s, roles))
  }

  /** Every header of the stripped sheet survives, and the five new columns
      are all there. */
  lemma AnnotatedHeaders(s: Table, roles: Roles)
    requires Rectangular(s) && RolesIn(roles, s.headers)
    ensures forall h | h in s.headers :: h in Annotated(s, roles).headers
    ensures forall h | h in ["QtdEmbalagem", "QtdEmbalagemGramas", "ValidacaoContenido",
                             "ValidacionPrecio", "ValidacionPrecioMediana"] ::
      h in Annotated(s, roles).headers
  {
  }

  /** The sheet as the script holds it, a data frame updated in place. */
  class Sheet {
    var headers: seq<string>
    var rows: seq<seq<Cell>>

    function Contents(): Table
      reads this
    {
      Table(headers, rows)
    }

    predicate Valid()
      reads this
    {
      Rectangular(Contents())
    }

    constructor (t: Table)
      requires Rectangular(t)
      ensures Valid() && Contents() == t
    {
      headers := t.headers;
      rows := t.rows;
    }

    /** Line 148. */
    method StripHeaders()
      requires Valid()
      modifies this
      ensures Valid() && Contents() == Stripped(old(Contents()))
    {
      headers := StripAll(headers);
    }

    /** `df[name] = values`. */
    method SetColumn(name: string, values: seq<Cell>)
      requires Valid() && |values| == |rows|
      modifies this
      ensures Valid() && Contents() == WithColumn(old(Contents()), name, values)
    {
      var rs := rows;
      if name in headers {
        var i := IndexOf(headers, name);
        rows := seq(|rs|, k requires 0 <= k < |rs| => rs[k][i := values[k]]);
      } else {
        headers := headers + [name];
        rows := seq(|rs|, k requires 0 <= k < |rs| => rs[k] + [values[k]]);
      }
    }

    /** Lines 168-169: the sales column coerced to numbers, then only the
        rows selling something kept. */
    method KeepSelling(name: string)
      requires Valid() && name in headers
      modifies this
      ensures Valid() && Contents() == Filtered(old(Contents()), name)
    {
      SetColumn(name, Coerced(Column(Contents(), name)));
      rows := Selling(rows, IndexOf(headers, name));
    }

    /** Lines 171-173: the matched text and the grams of each description. */
    method AddQuantities(description: string)
      requires Valid() && description in headers
      modifies this
      ensures Valid() && Contents() == Extracted(old(Contents()), description)
    {
      var d := Column(Contents(), description);
      var xs := seq(|d|, k requires 0 <= k < |d| => Describe(d[k]));
      SetColumn("QtdEmbalagem", seq(|xs|, k requires 0 <= k < |xs| => MatchedCell(xs[k])));
      SetColumn("QtdEmbalagemGramas", seq(|xs|, k requires 0 <= k < |xs| => GramsCell(xs[k])));
    }

    /** Lines 186-189. */
    method AddContentVerdicts(content: string)
      requires Valid() && content in headers && "QtdEmbalagemGramas" in headers
      modifies this
      ensures Valid() && Contents() == WithContentVerdicts(old(Contents()), content)
    {
      SetColumn("ValidacaoContenido",
        ContentCells(Column(Contents(), "QtdEmbalagemGramas"), Column(Contents(), content)));
    }

    /** Lines 190-191. */
    method AddPriceLabels(price: string, category: string)
      requires Valid() && price in headers && category in headers
      modifies this
      ensures Valid() && Contents() == WithMedianLabels(WithPriceLabels(old(Contents()), price, category), price, category)
    {
      SetColumn("ValidacionPrecio", LabelCells(QuantileLabels(PriceRows(Contents(), price, category))));
      SetColumn("ValidacionPrecioMediana", LabelCells(MedianLabels(PriceRows(Contents(), price, category))));
    }

    /** Lines 166-169, once the columns are resolved as `roles`. */
    method FilterSales(roles: Roles)
      requires Valid() && RolesIn(roles, headers)
      modifies this
      ensures Valid() && Contents() == SalesFiltered(old(Contents()), roles)
    {
      if roles.sales.Some? && roles.sales.value in headers {
        KeepSelling(roles.sales.value);
      }
    }

    /** Lines 171-191, on the filtered sheet. */
    method AddColumns(roles: Roles)
      requires Valid() && RolesIn(roles, headers)
      modifies this
      ensures Valid() && Contents() == Completed(old(Contents()), roles)
    {
      AddQuantities(roles.description);
      AddContentVerdicts(roles.content);
      AddPriceLabels(roles.price, roles.category);
    }
  }

  /** Lines 153-161: the five lookups, and whether the script goes on. */
  method ResolveRoles(hs: seq<string>, a: Aliases) returns (found: bool, roles: Roles)
    ensures found <==> RolesOf(hs, a).Some?
    ensures found ==> roles == RolesOf(hs, a).value
  {
    var vendas := FindColumn(hs, a.sales);
    var descricao := FindColumn(hs, a.description);
    var contenido := FindColumn(hs, a.content);
    var preco := FindColumn(hs, a.price);
    var categoria := FindColumn(hs, a.category);
    found := Truthy(descricao) && Truthy(contenido) && Truthy(preco) && Truthy(categoria);
    roles := Roles(vendas, if found then descricao.value else [], if found then contenido.value else [],
                   if found then preco.value else [], if found then categoria.value else []);
  }

  /** Lines 148-192, the script body run on the loaded sheet `df`. The
      outcome says where the run ends, and the sheet is left as it was
      there: headers stripped where a required column is not found, the
      filtered frame where nothing is left to extract from, the annotated
      sheet otherwise. */
  method Process(df: Sheet) returns (r: Run)
    requires df.Valid()
    modifies df
    ensures df.Valid()
    ensures r == Annotate(old(df.Contents()), ScriptAliases)
    ensures r.Stopped? ==> df.Contents() == r.stripped
    ensures r.Raised? ==> df.Contents() == r.filtered
    ensures r.Done? ==> df.Contents() == r.sheet
  {
    ghost var t := df.Contents();
    df.StripHeaders();
    var ok, roles := ResolveRoles(df.headers, ScriptAliases);
    AnnotateUnfolds(t, ScriptAliases);
    if !ok {
      return Stopped(df.Contents());
    }
    df.FilterSales(roles);
    if df.rows == [] {
      return Raised(df.Contents());
    }
    df.AddColumns(roles);
    r := Done(df.Contents());
  }

  lemma AnnotateUnfolds(t: Table, a: Aliases)
    requires Rectangular(t)
    ensures RolesOf(Stripped(t).headers, a).Some? ==>
      var s, roles := Stripped(t), RolesOf(Stripped(t).headers, a).value;
      Annotate(t, a) == if SalesFiltered(s, roles).rows == [] then Raised(SalesFiltered(s, roles))
                        else Done(Completed(SalesFiltered(s, roles), roles))
  {
  }
}
