/** The values a spreadsheet cell holds after pandas has read the file, and
    the verdict texts the script writes into its three validation columns. */
module Cells {

  /** `Blank` is a missing value (`NaN`/`None`, what `pd.isna` is true of),
      `Num` a number, `Text` a string. */
  datatype Cell = Blank | Num(x: real) | Text(s: string)

  /** The four verdicts. */
  datatype Label = Ok | Outlier | OutlierMediana | Problema

  /** The text written into the sheet for each verdict. */
  function LabelText(l: Label): (t: string)
    ensures |t| > 0
  {
    match l
    case Ok => "OK"
    case Outlier => "OUTLIER"
    case OutlierMediana => "OUTLIER_MEDIANA"
    case Problema => "PROBLEMA"
  }

  /** Distinct verdicts are written as distinct texts. */
  lemma LabelTextInjective(a: Label, b: Label)
    ensures LabelText(a) == LabelText(b) <==> a == b
  {
    if a != b {
      assert LabelText(a)[..2] != LabelText(b)[..2] || |LabelText(a)| != |LabelText(b)|;
    }
  }
}
