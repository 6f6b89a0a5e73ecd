# Packaging and price validator — a Dafny model

`check_mapeio_preco_streamlit.py` is a small Streamlit script. It loads a sheet of products and checks each row in four ways:

- it reads the packaging quantity out of the product description (`extrair_peso`);
- it compares that quantity with the declared content (`comparar_contenido`);
- it flags prices that fall outside the 5%–95% quantile band of their category (`validar_precio_por_categoria`);
- it flags prices that fall outside a third to three times the category median (`validar_precio_mediana`).

Before that, it finds the columns it needs by alias (`encontrar_coluna`) and optionally keeps only the rows that sold something.

This project models that core and proves properties of it.

- **The quantity parser** (`Quantity`, `QuantityFacts`, `QuantityExamples`).
  - Each of the four regular expressions of `extrair_peso` is a deterministic scanner that gives what Python's backtracking, case-insensitive `re.search` gives.
  - The `(kg|g|gr|ml|l|lt)` alternation keeps its written order.
  - The `\b` is present after lines 56, 66 and 75 and absent after line 42.
  - The `findall`/`float` step of line 46 is modelled, and so is the multiplier loop of lines 51-53.
  - The proofs show that lines 56-73 can never decide the answer.
  - Worked descriptions are proved: `1,5KG`, `2X3X200G`, `12 CX X 1KG`, `6X1LATAS` and `500GRAMAS`.
- **The content reconciler** (`Content`), over Python's `float()` of decimal text (`Numbers`).
- **The two price labellers** (`PriceRules`), over exact linear-interpolated quantiles and medians (`Stats`). A missing (NaN) price fails Python's chained comparison, so the `else` branch labels it an outlier under both rules, never OK.
- **The column resolver** (`Columns`): a nested loop proved against a recursive specification.
- **The script body of lines 148-192** (`Pipeline`, `Tables`).
  - The data frame is a class `Sheet` whose headers and rows are updated in place, one step at a time.
  - The whole run is proved equal to a function `Annotate` of the loaded sheet.

All numbers are exact reals. Cells are `Blank` (missing), `Num` or `Text`.

## Model

| member | source | states |
|---|---|---|
| Chars.Lower | check_mapeio_preco_streamlit.py:91 | `str.lower()` on a character: ASCII letters go to lower case, and no other character becomes an ASCII letter |
| Chars.LowerText | check_mapeio_preco_streamlit.py:91 | `s.lower()` keeps the length and lowers every character |
| Chars.Strip | check_mapeio_preco_streamlit.py:148 | `str.strip()` (and, with the narrower blank set of `float()`, the stripping inside `float()` at line 181): the result is a slice of the text with only blanks before and after it; it has no blank at either end; it is empty exactly when the text is all blanks; a text without blanks at its ends is unchanged |
| Chars.StripSlice | check_mapeio_preco_streamlit.py:148 | the stripped text is the slice left after the leading and trailing blanks, which are all blanks |
| Chars.StripPadded | check_mapeio_preco_streamlit.py:148 | blanks around a text with non-blank ends are removed, giving exactly that text |
| Chars.StripIdempotent | check_mapeio_preco_streamlit.py:148 | stripping twice is stripping once |
| Chars.ReplaceCommas | check_mapeio_preco_streamlit.py:181 | `replace(",", ".")`: same length, every comma becomes a point, every other character stays |
| Chars.DigitEnd | check_mapeio_preco_streamlit.py:42 | a greedy `\d*` stops at the first non-digit, and everything it spans is a digit |
| Chars.SpaceEnd | check_mapeio_preco_streamlit.py:42 | a greedy `\s*` stops at the first non-blank, and everything it spans is blank |
| Numbers.DigitsValue | check_mapeio_preco_streamlit.py:58 | `int()` of a digit string is below 10 to the power of its length |
| Numbers.Trunc | check_mapeio_preco_streamlit.py:54 | `int()` of a float truncates toward zero |
| Numbers.NumeralParses | check_mapeio_preco_streamlit.py:46 | `float(n.replace(",", "."))` never raises on text matched by `\d+[.,]?\d*`: it reads the digits before and after the separator |
| Numbers.NumeralIsFloat | check_mapeio_preco_streamlit.py:46 | `float(n.replace(",", "."))` of such a numeral is its decimal value |
| Numbers.DigitsNumeral | check_mapeio_preco_streamlit.py:46 | a numeral without separator is worth the whole number it writes |
| Numbers.DigitsParse | check_mapeio_preco_streamlit.py:181 | `float()` of a digit string is the whole number it writes |
| Numbers.NatTextParses | check_mapeio_preco_streamlit.py:181 | a whole number written out in decimal reads back as itself |
| Numbers.ParseFloat | check_mapeio_preco_streamlit.py:181 | `float()` of decimal text, stripping ASCII whitespace and non-ASCII Unicode whitespace but not U+001C to U+001F: a text of blanks only is unreadable |
| Numbers.Signed | check_mapeio_preco_streamlit.py:181 | a leading sign keeps or negates the value |
| Numbers.DigitThenStray | check_mapeio_preco_streamlit.py:181 | `float()` raises on a digit followed by a character that is no digit, no point and no blank it strips |
| Numbers.SeparatorUnreadable | check_mapeio_preco_streamlit.py:181 | `float("5\x1c")` raises: U+001C is not stripped by `float()` |
| Numbers.PaddedNumeral | check_mapeio_preco_streamlit.py:181 | `float(s.replace(",", "."))` of a numeral with an optional sign and blanks around it is plus or minus the numeral's value |
| Cells.LabelTextInjective | check_mapeio_preco_streamlit.py:102 | the four verdict texts "OK", "OUTLIER", "OUTLIER_MEDIANA" and "PROBLEMA" are pairwise different |
| Content.DeclaredValue | check_mapeio_preco_streamlit.py:181 | a missing content gives no value; a number cell gives its own value |
| Content.Reconcile | check_mapeio_preco_streamlit.py:175-184 | the verdict is OK or PROBLEMA; PROBLEMA when either side is missing or the declared text is not a number once commas become points; otherwise OK exactly when the grams and the declared value differ by less than 1 |
| Content.ReconcileWithin | check_mapeio_preco_streamlit.py:182 | against a declared number: OK exactly when it lies strictly within one of the extracted grams |
| Content.ReconcileWhole | check_mapeio_preco_streamlit.py:182 | against a declared whole number: OK exactly when the two are equal |
| Content.CommaOrPoint | check_mapeio_preco_streamlit.py:181 | replacing the commas of the declared text first does not change the verdict |
| Content.TextAsNumber | check_mapeio_preco_streamlit.py:181-182 | a declared numeral text gets the verdict of the number it writes |
| Content.WrittenOut | check_mapeio_preco_streamlit.py:181-182 | a whole number of grams declared as its own decimal text is OK |
| Content.SameDeclared | check_mapeio_preco_streamlit.py:181-182 | two declared cells with the same value get the same verdict |
| Content.PaddedAsNumber | check_mapeio_preco_streamlit.py:181-182 | a declared text that is a signed numeral with blanks around it gets the verdict of the number it writes |
| Content.FiveHundred | check_mapeio_preco_streamlit.py:175-184 | `(500, "500")` gives OK |
| Content.FiveHundredOneAndAHalf | check_mapeio_preco_streamlit.py:175-184 | `(500, "501,5")` gives PROBLEMA |
| Content.SeparatorAfterNumber | check_mapeio_preco_streamlit.py:175-184 | `(5, "5\x1c")` gives PROBLEMA: `float()` does not strip the separator U+001C that `str.strip()` drops |
| Stats.Sort | check_mapeio_preco_streamlit.py:100-101 | the ascending order the quantile reads: sorted, and a permutation of the group's prices |
| Stats.SortPermutation | check_mapeio_preco_streamlit.py:100-101 | prices in any order sort to the same sequence |
| Stats.Interpolate | check_mapeio_preco_streamlit.py:100-101 | the linear interpolation lies between the two neighbouring sorted values |
| Stats.Quantile | check_mapeio_preco_streamlit.py:100-101 | `Series.quantile` is missing (NaN) exactly when the group has no price |
| Stats.Median | check_mapeio_preco_streamlit.py:110 | `Series.median` is missing exactly when the group has no price |
| Stats.MedianIsHalfQuantile | check_mapeio_preco_streamlit.py:110 | the median is the 0.5 quantile |
| Stats.QuantileInRange | check_mapeio_preco_streamlit.py:100-101 | a quantile lies between the smallest and the largest price |
| Stats.QuantileConstant | check_mapeio_preco_streamlit.py:100-101 | every quantile of a constant group is that constant |
| Stats.QuantileMonotone | check_mapeio_preco_streamlit.py:100-101 | the 5% quantile never exceeds the 95% one |
| Stats.OrderFree | check_mapeio_preco_streamlit.py:100-110 | the quantiles and the median depend only on the multiset of prices |
| PriceRules.InGroup | check_mapeio_preco_streamlit.py:103 | a row's own price is among the prices of its `groupby` group |
| PriceRules.GroupPrices | check_mapeio_preco_streamlit.py:103 | a group has at most one price per row |
| PriceRules.FromGroup | check_mapeio_preco_streamlit.py:103 | every price of a group comes from a row of that category |
| PriceRules.GroupPermutation | check_mapeio_preco_streamlit.py:103 | reordering the rows only reorders each group's prices |
| PriceRules.BandLabel | check_mapeio_preco_streamlit.py:99-102 | `marcar_outliers` on one price gives OK or OUTLIER; OUTLIER for a missing price or a group without prices |
| PriceRules.MedianLabel | check_mapeio_preco_streamlit.py:109-113 | `marcar_por_mediana` on one price gives OK or OUTLIER_MEDIANA; OUTLIER_MEDIANA for a missing price |
| PriceRules.RowBandLabel | check_mapeio_preco_streamlit.py:103 | a row gets no quantile label exactly when its category is missing; otherwise it gets OK or OUTLIER |
| PriceRules.RowMedianLabel | check_mapeio_preco_streamlit.py:114 | a row gets no median label exactly when its category is missing; otherwise it gets OK or OUTLIER_MEDIANA |
| PriceRules.QuantileLabels | check_mapeio_preco_streamlit.py:103 | one quantile label per row |
| PriceRules.MedianLabels | check_mapeio_preco_streamlit.py:114 | one median label per row |
| PriceRules.LabelsShape | check_mapeio_preco_streamlit.py:98-114 | label i is missing exactly when row i has no category; otherwise it is OK or OUTLIER, and OK or OUTLIER_MEDIANA |
| PriceRules.RowBand | check_mapeio_preco_streamlit.py:103 | `transform` gives a row of category k the band label of its price within the prices of k |
| PriceRules.RowMedian | check_mapeio_preco_streamlit.py:114 | `transform` gives a row of category k the median label of its price within the prices of k |
| PriceRules.BandVerdict | check_mapeio_preco_streamlit.py:100-102 | a price of the group is OK exactly when q(0.05) <= price <= q(0.95), bounds included |
| PriceRules.MissingPriceOutlier | check_mapeio_preco_streamlit.py:102-113 | a categorised row without a price is OUTLIER and OUTLIER_MEDIANA |
| PriceRules.ConstantGroupOk | check_mapeio_preco_streamlit.py:98-103 | in a group whose prices are all equal, every priced row is OK |
| PriceRules.LonePriceOk | check_mapeio_preco_streamlit.py:98-103 | the only priced row of its group is OK |
| PriceRules.TwoPricesBothOutliers | check_mapeio_preco_streamlit.py:100-102 | in a group of two different prices, both are OUTLIER |
| PriceRules.MedianVerdict | check_mapeio_preco_streamlit.py:110-113 | a price of the group is OK exactly when m/3 <= price <= 3m for the group median m |
| PriceRules.ConstantGroupMedian | check_mapeio_preco_streamlit.py:108-114 | in a constant group, the priced rows are OK exactly when the price is not negative |
| PriceRules.MedianBoundsIncluded | check_mapeio_preco_streamlit.py:111-113 | with m >= 0, the prices 3m, m/3 and m are OK |
| PriceRules.NegativeMedianNoneOk | check_mapeio_preco_streamlit.py:111-113 | with m < 0 the band is empty: every price is OUTLIER_MEDIANA |
| PriceRules.GroupsAlike | check_mapeio_preco_streamlit.py:103-114 | reordered rows give every group the same quantiles and median |
| PriceRules.BandOrderFree | check_mapeio_preco_streamlit.py:103 | a row's quantile label does not depend on the order of the rows |
| PriceRules.MedianOrderFree | check_mapeio_preco_streamlit.py:114 | a row's median label does not depend on the order of the rows |
| Columns.FindColumn | check_mapeio_preco_streamlit.py:88-93 | the nested loop with early return answers what the alias-first search `Resolve` answers |
| Columns.FirstHeaderNone | check_mapeio_preco_streamlit.py:90-92 | the inner loop finds nothing exactly when the alias is in no remaining header |
| Columns.NotFound | check_mapeio_preco_streamlit.py:88-93 | `None` exactly when no lowered alias occurs in any lowered header |
| Columns.Found | check_mapeio_preco_streamlit.py:88-93 | a found column contains the chosen alias; no earlier alias matches any header; no earlier header matches the chosen alias |
| Columns.FoundNonEmpty | check_mapeio_preco_streamlit.py:159 | with non-empty aliases a found column is never the empty (falsy) name |
| Tables.IndexOf | check_mapeio_preco_streamlit.py:187 | access by name reads the first header of that name |
| Tables.Column | check_mapeio_preco_streamlit.py:187 | a column has one cell per row |
| Tables.WithColumn | check_mapeio_preco_streamlit.py:186-192 | `df[name] = values` overwrites or appends the column; every old header stays; reading the column back gives the values |
| Tables.OtherColumns | check_mapeio_preco_streamlit.py:186-192 | assigning one column leaves every other column unchanged |
| Pipeline.ScriptAliasesNonEmpty | check_mapeio_preco_streamlit.py:153-157 | none of the script's aliases is empty |
| Pipeline.FoundIsHeader | check_mapeio_preco_streamlit.py:88-93 | a resolved name is one of the headers |
| Pipeline.RolesOf | check_mapeio_preco_streamlit.py:153-161 | when the script goes on, the four required names are headers and the sales name is whatever its lookup found |
| Pipeline.NotTruthy | check_mapeio_preco_streamlit.py:159 | a lookup is falsy exactly when no alias matches any header |
| Pipeline.Stops | check_mapeio_preco_streamlit.py:159-161 | the script stops exactly when the description, content, price or category aliases match no header |
| Pipeline.ResolveRoles | check_mapeio_preco_streamlit.py:153-161 | the five lookups decide to go on exactly when `RolesOf` does, with the same names |
| Pipeline.ToNumeric | check_mapeio_preco_streamlit.py:168 | `to_numeric(errors="coerce")`: numbers stay, missing stays missing, text becomes a number exactly when it parses, and then it is the number it reads as |
| Pipeline.Selling | check_mapeio_preco_streamlit.py:169 | `df[df[col] > 0]` keeps exactly the rows holding a positive number there, and only rows of the input |
| Pipeline.SellingAppend | check_mapeio_preco_streamlit.py:169 | the row filter keeps the order of the rows: filtering a concatenation concatenates the filtered parts |
| Pipeline.SellingOne | check_mapeio_preco_streamlit.py:169 | one row is kept exactly when it holds a positive number in the sales column |
| Pipeline.Coerce | check_mapeio_preco_streamlit.py:168 | `df[col] = to_numeric(df[col])` on one row: the sales cell is coerced and every other cell stays |
| Pipeline.Filtered | check_mapeio_preco_streamlit.py:166-169 | the filter keeps the headers and never adds rows |
| Pipeline.FilterKeeps | check_mapeio_preco_streamlit.py:168-169 | the filtered rows are, in their order, the coerced rows whose sales value is positive; a row (text included) is kept exactly when its coerced sales value is a positive number; every kept sales value is a positive number |
| Pipeline.Describe | check_mapeio_preco_streamlit.py:171-173 | `extrair_peso` on a description cell: a missing or numeric cell gives `(None, None)` |
| Pipeline.Extracted | check_mapeio_preco_streamlit.py:171-173 | the two quantity columns are added, every other header stays, and no row is lost |
| Pipeline.ExtractedAt | check_mapeio_preco_streamlit.py:171-173 | row k of the two quantity columns holds the text and the grams `extrair_peso` gives for row k's description, or missing cells for `(None, None)` |
| Pipeline.ExtractedOthers | check_mapeio_preco_streamlit.py:171-173 | every other column is unchanged by the extraction |
| Pipeline.CellGrams | check_mapeio_preco_streamlit.py:187 | a missing grams cell gives no grams |
| Pipeline.GramsRoundTrip | check_mapeio_preco_streamlit.py:171-187 | reading the grams column back gives the extracted count, or none |
| Pipeline.WithContentVerdicts | check_mapeio_preco_streamlit.py:186-189 | the content verdict column is added and no row is lost |
| Pipeline.ContentVerdictAt | check_mapeio_preco_streamlit.py:175-189 | row k's verdict is the verdict of row k's grams against row k's declared content |
| Pipeline.RowContentVerdict | check_mapeio_preco_streamlit.py:171-189 | after the extraction, row k's verdict compares the grams found in row k's description with row k's declared content |
| Pipeline.ContentVerdicts | check_mapeio_preco_streamlit.py:186-189 | every content verdict is "OK" or "PROBLEMA" |
| Pipeline.Key | check_mapeio_preco_streamlit.py:103 | a missing category is dropped from the `groupby` |
| Pipeline.PriceOf | check_mapeio_preco_streamlit.py:100-101 | only numeric prices enter a group's statistics |
| Pipeline.LabelCell | check_mapeio_preco_streamlit.py:191 | a row without a label gets a missing cell |
| Pipeline.WithPriceLabels | check_mapeio_preco_streamlit.py:191 | the quantile label column is added to the filtered rows |
| Pipeline.WithMedianLabels | check_mapeio_preco_streamlit.py:192 | the median label column is added to the filtered rows |
| Pipeline.PriceLabelAt | check_mapeio_preco_streamlit.py:191 | the quantile label of row k is the label of its (category, price) row |
| Pipeline.MedianLabelAt | check_mapeio_preco_streamlit.py:192 | the median label of row k is the label of its (category, price) row |
| Pipeline.PriceVerdict | check_mapeio_preco_streamlit.py:191 | on the sheet: no quantile label for a missing category; otherwise "OK" exactly when the price is a number within the band of its category |
| Pipeline.MedianPriceVerdict | check_mapeio_preco_streamlit.py:192 | on the sheet: no median label for a missing category; otherwise "OK" exactly when the price is a number within a third and three times its category's median |
| Pipeline.Annotated | check_mapeio_preco_streamlit.py:166-192 | the steps of lines 166-192 keep the sheet rectangular and keep exactly the rows left by the sales filter; without a sales column no row is lost |
| Pipeline.SalesFiltered | check_mapeio_preco_streamlit.py:166-169 | the optional sales filter keeps the headers and never adds rows; without a sales column it changes nothing |
| Pipeline.Completed | check_mapeio_preco_streamlit.py:171-192 | the five columns are added to the filtered rows and no row is lost |
| Pipeline.LabelsKeep | check_mapeio_preco_streamlit.py:191-192 | writing the two price label columns leaves every other column unchanged |
| Pipeline.AnnotatedRow | check_mapeio_preco_streamlit.py:171-192 | in the annotated sheet, row k's quantity columns hold what `extrair_peso` gives for row k's description, and row k's content verdict compares those grams with row k's declared content |
| Pipeline.ContentKeeps | check_mapeio_preco_streamlit.py:171-189 | writing the quantity and content columns leaves every other column of the filtered sheet, price and category included, unchanged |
| Pipeline.BandFrom | check_mapeio_preco_streamlit.py:191 | two sheets with the same price and category columns get the same quantile label: blank for a missing category, else "OK" exactly when the price is a number inside its category's band |
| Pipeline.MedianFrom | check_mapeio_preco_streamlit.py:192 | two sheets with the same price and category columns get the same median label: blank for a missing category, else "OK" exactly when the price is a number within a third and three times its category's median |
| Pipeline.AnnotatedBand | check_mapeio_preco_streamlit.py:191 | in the annotated sheet, row k's quantile label is decided by row k's price and category and the prices of the sales-filtered sheet |
| Pipeline.AnnotatedMedian | check_mapeio_preco_streamlit.py:192 | in the annotated sheet, row k's median label is decided by row k's price and category and the prices of the sales-filtered sheet |
| Pipeline.AnnotatedPrices | check_mapeio_preco_streamlit.py:171-192 | in the annotated sheet, row k's two price labels are stated in terms of the sales-filtered sheet: blank for a missing category, else "OK" exactly when the price is a number inside its category's band, resp. within its median bounds |
| Pipeline.AnnotatedHeaders | check_mapeio_preco_streamlit.py:171-192 | every stripped header survives and the five new columns are all present |
| Pipeline.Annotate | check_mapeio_preco_streamlit.py:148-192 | the run stops exactly when the lookups fail on the stripped headers, leaving the stripped sheet; it raises at line 171 on an empty filtered frame; otherwise it yields a rectangular sheet with rows |
| Pipeline.AnnotateUnfolds | check_mapeio_preco_streamlit.py:148-192 | when the lookups succeed, the run raises on an empty filtered frame and otherwise completes the filtered sheet with the names found |
| Pipeline.Sheet.constructor | check_mapeio_preco_streamlit.py:146 | the data frame holds the loaded sheet |
| Pipeline.Sheet.StripHeaders | check_mapeio_preco_streamlit.py:148 | the headers are stripped in place, and the rows are unchanged |
| Pipeline.Sheet.SetColumn | check_mapeio_preco_streamlit.py:186-192 | assigning a column in place gives `WithColumn` of the old sheet |
| Pipeline.Sheet.KeepSelling | check_mapeio_preco_streamlit.py:168-169 | coercing and filtering in place gives `Filtered` of the old sheet |
| Pipeline.Sheet.AddQuantities | check_mapeio_preco_streamlit.py:171-173 | the quantity columns are added in place, as `Extracted` |
| Pipeline.Sheet.AddContentVerdicts | check_mapeio_preco_streamlit.py:186-189 | the content verdicts are added in place |
| Pipeline.Sheet.AddPriceLabels | check_mapeio_preco_streamlit.py:191-192 | the quantile labels, then the median labels, are added in place over the same rows |
| Pipeline.Sheet.FilterSales | check_mapeio_preco_streamlit.py:166-169 | the optional sales filter in place gives `SalesFiltered` of the old sheet |
| Pipeline.Sheet.AddColumns | check_mapeio_preco_streamlit.py:171-192 | the five columns added in place give `Completed` of the old sheet |
| Pipeline.Process | check_mapeio_preco_streamlit.py:148-192 | the script body gives `Annotate` of the loaded sheet and leaves the data frame as that outcome says: headers stripped where it stops, the empty filtered frame where line 171 raises, the annotated sheet otherwise |
| Quantity.UnitText | check_mapeio_preco_streamlit.py:40 | each unit of the alternation is spelled with one or two letters |
| Quantity.Scaled | check_mapeio_preco_streamlit.py:49-50 | kg, l and lt multiply by 1000; g, gr and ml pass through |
| Quantity.UnitFrom | check_mapeio_preco_streamlit.py:40 | the alternation takes a unit of the list that is spelled at the position (followed by `\b` where the pattern has one) and ends after it |
| Quantity.TailAt | check_mapeio_preco_streamlit.py:42 | `\d+[.,]?\d*\s*UNIT` starts on a digit, ends after it, and its number ends where the numeral ends |
| Quantity.CrossAfter | check_mapeio_preco_streamlit.py:42 | `\s*[xX]\s*` consumes at least the `x` |
| Quantity.TokenThenCross | check_mapeio_preco_streamlit.py:39-42 | the optional pack token followed by `x` consumes at least the `x` |
| Quantity.FactorStep | check_mapeio_preco_streamlit.py:42 | one round of the repetition starts on a digit and consumes something |
| Quantity.MultiFrom | check_mapeio_preco_streamlit.py:42 | the greedy repetition followed by the tail ends after its start |
| Quantity.MultiAt | check_mapeio_preco_streamlit.py:42 | a line 42 match at p starts on a digit, ends inside the text after p, and is one round of the repetition followed by the rest |
| Quantity.TripleAt | check_mapeio_preco_streamlit.py:56 | a line 56 match has a non-negative value |
| Quantity.DoubleAt | check_mapeio_preco_streamlit.py:66 | a line 66 match has a non-negative value |
| Quantity.BareAt | check_mapeio_preco_streamlit.py:75 | a line 75 match has a non-negative value |
| Quantity.MatchAt | check_mapeio_preco_streamlit.py:42-75 | a match of a pattern at p starts at p on a digit and ends inside the text |
| Quantity.SearchFrom | check_mapeio_preco_streamlit.py:42 | `re.search` gives the match at its start, and no earlier position matches; without a result, no position matches |
| Quantity.NoneBetweenAt | check_mapeio_preco_streamlit.py:42 | every position skipped by the search fails to match |
| Quantity.FirstHit | check_mapeio_preco_streamlit.py:42-81 | the first pattern that matches gives a non-empty match starting on a digit |
| Quantity.FindNumerals | check_mapeio_preco_streamlit.py:46 | `re.findall(r"\d+[.,]?\d*")` yields numerals only, at least one when the text starts with a digit; how it splits the text is stated by `QuantityFacts.Findall` |
| Quantity.NumeralValues | check_mapeio_preco_streamlit.py:46 | one non-negative float per numeral |
| Quantity.BlockNumbers | check_mapeio_preco_streamlit.py:46 | a matched block yields at least one number, none negative |
| Quantity.NumeralValuesCons | check_mapeio_preco_streamlit.py:46 | the numbers are read in order, the first numeral first |
| Quantity.BlockWeight | check_mapeio_preco_streamlit.py:47-53 | the accumulator loop gives the scaled last number times every earlier number |
| Quantity.GroupsWeight | check_mapeio_preco_streamlit.py:57-73 | `n1 * n2 * valor` and `n1 * valor` with the value scaled by its unit |
| Quantity.ExtractWeight | check_mapeio_preco_streamlit.py:35-83 | `extrair_peso` tries the four searches in order and returns the first one's text and truncated total, or `(None, None)` |
| Quantity.Extract | check_mapeio_preco_streamlit.py:35-83 | `(None, None)` exactly when the description is missing or no pattern matches; a match is a non-empty part of the text starting on a digit |
| QuantityFacts.TokensThenX | check_mapeio_preco_streamlit.py:39-42 | at an `x` no pack token applies and the empty alternative is taken |
| QuantityFacts.CrossIsFactor | check_mapeio_preco_streamlit.py:42 | `\d+\s*[xX]\s*` is one round of the repetition |
| QuantityFacts.TailUnbounded | check_mapeio_preco_streamlit.py:42-75 | a tail followed by `\b` is also a tail without it |
| QuantityFacts.MultiFromStep | check_mapeio_preco_streamlit.py:42 | one more round of the repetition keeps a successful match |
| QuantityFacts.MultiFromTail | check_mapeio_preco_streamlit.py:42 | the repetition can always stop where a tail matches |
| QuantityFacts.TripleImpliesMulti | check_mapeio_preco_streamlit.py:42-56 | wherever line 56 matches, line 42 matches at the same place |
| QuantityFacts.DoubleImpliesMulti | check_mapeio_preco_streamlit.py:42-66 | wherever line 66 matches, line 42 matches at the same place |
| QuantityFacts.DeadBranches | check_mapeio_preco_streamlit.py:42-81 | when line 42 finds nothing, lines 56 and 66 find nothing either; the answer is the multi block, else the bare numeral |
| QuantityFacts.OnlyMultiOrBare | check_mapeio_preco_streamlit.py:42-81 | every answer comes from line 42 or line 75 |
| QuantityFacts.NumeralSpans | check_mapeio_preco_streamlit.py:46 | the positions of the numerals `re.findall` returns: one span per numeral, each inside the scanned text |
| QuantityFacts.NumeralsAt | check_mapeio_preco_streamlit.py:46 | each returned numeral is the text of its span, which starts on a digit and ends where the numeral pattern stops |
| QuantityFacts.NumeralsInOrder | check_mapeio_preco_streamlit.py:46 | the numerals are returned left to right without overlap |
| QuantityFacts.NumeralsCover | check_mapeio_preco_streamlit.py:46 | every digit of the scanned text lies inside some returned numeral |
| QuantityFacts.Findall | check_mapeio_preco_streamlit.py:46 | `re.findall` splits the text greedily from the left: each numeral is the longest match at its start, no digit follows it, the numerals are in order and together hold every digit |
| QuantityFacts.OneSpan | check_mapeio_preco_streamlit.py:46 | every digit of the scanned text lies in exactly one returned numeral |
| QuantityFacts.NumberEndStops | check_mapeio_preco_streamlit.py:42-46 | a numeral read greedily is never followed by a digit |
| QuantityFacts.UnitChain | check_mapeio_preco_streamlit.py:40 | the alternation tries kg, g, gr, ml, l, lt in that order |
| QuantityFacts.NoUnitFits | check_mapeio_preco_streamlit.py:40 | when no unit fits, the alternation fails |
| QuantityFacts.UnboundedUnit | check_mapeio_preco_streamlit.py:40-45 | without `\b`, g is taken before gr and l before lt, so line 42 never reports gr or lt |
| QuantityFacts.KiloUnbounded | check_mapeio_preco_streamlit.py:40-42 | without `\b`, a `kg` is read as kilograms |
| QuantityFacts.GramUnbounded | check_mapeio_preco_streamlit.py:40-42 | without `\b`, a `g` is read as grams whatever follows it |
| QuantityFacts.LitreUnbounded | check_mapeio_preco_streamlit.py:40-42 | without `\b`, an `l` is read as litres whatever follows it |
| QuantityFacts.MultiHitUnit | check_mapeio_preco_streamlit.py:40-45 | the unit of a multi-block answer is kg, g, ml or l |
| QuantityFacts.NoMatchIff | check_mapeio_preco_streamlit.py:35-83 | `(None, None)` exactly when neither line 42 nor line 75 matches at any position |
| QuantityFacts.NoUnitLetterNoMatch | check_mapeio_preco_streamlit.py:35-83 | a description without k, g, m or l gives `(None, None)` |
| QuantityFacts.FloatTextNoMatch | check_mapeio_preco_streamlit.py:38 | `str()` of a number cell never matches, so a numeric description gives `(None, None)` |
| QuantityFacts.UnitAtEnd | check_mapeio_preco_streamlit.py:40-75 | with `\b`, a unit spelled at the very end of the text is read as that unit, gr and lt included |
| QuantityFacts.NumeralThenUnit | check_mapeio_preco_streamlit.py:75 | a numeral written against a unit is read by the bounded tail over the whole text |
| QuantityFacts.NoCrossNoSearch | check_mapeio_preco_streamlit.py:42 | a text without `x` has no multi block |
| QuantityFacts.BareQuantity | check_mapeio_preco_streamlit.py:75-81 | a numeral written against a unit gives the whole text and the truncated scaled value |
| QuantityFacts.WholeBare | check_mapeio_preco_streamlit.py:75-81 | a bare match spanning the text gives it and its truncated scaled value |
| QuantityFacts.HitTotalNonNegative | check_mapeio_preco_streamlit.py:46-81 | the float passed to `int()` is never negative |
| QuantityFacts.GramsNonNegative | check_mapeio_preco_streamlit.py:35-83 | the count of grams or millilitres is never negative |
| QuantityExamples.MultiAnswer | check_mapeio_preco_streamlit.py:43-54 | a line 42 answer, wherever its block starts in the text, is that block and its folded total |
| QuantityExamples.CansTotal | check_mapeio_preco_streamlit.py:47-53 | 1 l times 6 is 6000 |
| QuantityExamples.OneAndAHalf | check_mapeio_preco_streamlit.py:46 | `1,5` reads as 1.5 |
| QuantityExamples.CommaDecimalKilo | check_mapeio_preco_streamlit.py:75-81 | `1,5KG` gives `("1,5KG", 1500)` |
| QuantityExamples.TwoByThreeHit | check_mapeio_preco_streamlit.py:42 | line 42 matches all of `2X3X200G`, in grams |
| QuantityExamples.TwoByThreeNumbers | check_mapeio_preco_streamlit.py:46 | the block `2X3X200G` reads as 2, 3 and 200 |
| QuantityExamples.ChainTotal | check_mapeio_preco_streamlit.py:47-53 | 200 g times 2 times 3 is 1200 |
| QuantityExamples.MultiplierChain | check_mapeio_preco_streamlit.py:42-54 | `2X3X200G` gives `("2X3X200G", 1200)` |
| QuantityExamples.BoxHit | check_mapeio_preco_streamlit.py:39-42 | line 42 matches all of `12 CX X 1KG`, the `CX` being a pack token |
| QuantityExamples.BoxNumbers | check_mapeio_preco_streamlit.py:46 | the block `12 CX X 1KG` reads as 12 and 1 |
| QuantityExamples.PackToken | check_mapeio_preco_streamlit.py:39-54 | `12 CX X 1KG` gives `("12 CX X 1KG", 12000)` |
| QuantityExamples.CansHit | check_mapeio_preco_streamlit.py:42 | line 42 matches `6X1L` inside `6X1LATAS` |
| QuantityExamples.UnitInsideWord | check_mapeio_preco_streamlit.py:42-54 | `6X1LATAS` gives `("6X1L", 6000)`: the `L` of `LATAS` counts as litres |
| QuantityExamples.GramasUnit | check_mapeio_preco_streamlit.py:75 | in `500GRAMAS` neither `g` nor `gr` is followed by `\b` |
| QuantityExamples.UnitNeedsBoundary | check_mapeio_preco_streamlit.py:75-83 | `500GRAMAS` gives `(None, None)` |

## Left out

- The user interface is not modelled: page setup, text, uploader, messages, table display and download button (lines 10-30, 137-140, 160-161, 194-212).
- `st.stop()` is modelled as the run ending with only the headers stripped.
- Reading the CSV or Excel file (lines 143-146) and `to_excel` (lines 119-122) are file I/O. The model starts from a loaded sheet of cells.
- `colorir_valores` (lines 127-132) only picks display colours.
- Floating point is not modelled. Numbers are exact reals, so the model has no IEEE-754 rounding in `float()`, in the ×1000 scaling, in the products, in the quantile interpolation or in `m/3`. `int()` truncates the exact value.
- Numbers.ParseFloat: reads an optional sign, ASCII digits and an optional point with digits, inside blanks. It treats exponents, `_` digit separators, `inf` and `nan` as unreadable, and it does not map non-ASCII decimal digits (such as the fullwidth digits U+FF10 to U+FF19) to ASCII digits as `float()` does. The model reports a declared content written in any of these forms as PROBLEMA, where the script may read a number.
- Pipeline.ToNumeric: `pd.to_numeric` is approximated by the same reading of decimal text.
- Chars.Lower: only ASCII and Latin-1 letters are folded. `\d` is ASCII digits only, and `\b` sees ASCII and Latin-1 alphanumerics and `_` as word characters.
- Pipeline.PriceOf: a price cell holding text is treated as missing. pandas would fail on a non-numeric price column, and the script does not coerce prices.
- Pipeline.Describe: a numeric description cell gives `(None, None)` directly. `QuantityFacts.FloatTextNoMatch` justifies this from the characters `str()` of a float can produce.
- Pipeline.CellGrams: reads the grams back from the written column as the floor of the number. The column only ever holds whole numbers or blanks.
- Pipeline.Annotated: rows whose category is missing get a missing label. This follows `groupby` dropping missing keys, not any particular pandas version.
- Tables.IndexOf: a sheet with duplicate header names is read and written through the first header of that name. pandas would return several columns.
- PriceRules.QuantileLabels: its own contract states the number of labels. What kind each label is, is stated by `PriceRules.LabelsShape`, and which one by `PriceRules.RowBand` and `Pipeline.PriceVerdict`.
- PriceRules.MedianLabels: its own contract states the number of labels. What kind each label is, is stated by `PriceRules.LabelsShape`, and which one by `PriceRules.RowMedian` and `Pipeline.MedianPriceVerdict`.
- Pipeline.Process: the error raised at line 171 on an empty filtered frame is modelled as the outcome `Raised`; the message and the traceback Streamlit shows are not.
- Pipeline.Stripped: headers are modelled as text. A header that is a number is not: `.str.strip()` at line 148 raises on an all-number header index and turns a number into NaN on a mixed one, and `col.lower()` at line 91 raises when the search reaches a non-text header.
