/** A data frame as the script sees it: named columns over rows of cells,
    read and written by column name. */
module Tables {
  import opened Cells

  datatype Table = Table(headers: seq<string>, rows: seq<seq<Cell>>)

  /** Every row has one cell per header. */
  predicate Rectangular(t: Table) {
    forall k | 0 <= k < |t.rows| :: |t.rows[k]| == |t.headers|
  }

  /** The position of the first header called `name`. */
  function IndexOf(hs: seq<string>, name: string): (i: nat)
    requires name in hs
    ensures i < |hs| && hs[i] == name
    ensures forall j | 0 <= j < i :: hs[j] != name
  {
    if hs[0] == name then 0 else 1 + IndexOf(hs[1..], name)
  }

  /** Adding a header at the end does not move the ones already there. */
  lemma {:induction false} IndexOfAppend(hs: seq<string>, name: string, extra: string)
    requires name in hs
    ensures name in hs + [extra] && IndexOf(hs + [extra], name) == IndexOf(hs, name)
  {
    var i, j := IndexOf(hs, name), IndexOf(hs + [extra], name);
    assert (hs + [extra])[i] == name;
    assert hs[j] == name by {
      if j >= i {
      } else {
        assert (hs + [extra])[j] == hs[j];
      }
    }
  }

  /** `df[name]`: the cells of the column called `name`, row by row. */
  function Column(t: Table, name: string): (c: seq<Cell>)
    requires Rectangular(t) && name in t.headers
    ensures |c| == |t.rows|
  {
    var i := IndexOf(t.headers, name);
    seq(|t.rows|, k requires 0 <= k < |t.rows| => t.rows[k][i])
  }

  /** `df[name] = values`: the column is overwritten where a header of that
      name exists, and appended under a new header otherwise. Reading the
      column back gives the values written. */
  function WithColumn(t: Table, name: string, values: seq<Cell>): (r: Table)
    requires Rectangular(t) && |values| == |t.rows|
    ensures Rectangular(r) && |r.rows| == |t.rows|
    ensures r.headers == if name in t.headers then t.headers else t.headers + [name]
    ensures forall h | h in t.headers :: h in r.headers
    ensures name in r.headers && Column(r, name) == values
  {
    if name in t.headers then
      var i := IndexOf(t.headers, name);
      var r := Table(t.headers, seq(|t.rows|, k requires 0 <= k < |t.rows| => t.rows[k][i := values[k]]));
      assert Column(r, name) == values;
      r
    else
      var r := Table(t.headers + [name], seq(|t.rows|, k requires 0 <= k < |t.rows| => t.rows[k] + [values[k]]));
      assert IndexOf(r.headers, name) == |t.headers|;
      assert Column(r, name) == values;
      r
  }

  /** Writing one column leaves every other column as it was. */
  lemma OtherColumns(t: Table, name: string, values: seq<Cell>, h: string)
    requires Rectangular(t) && |values| == |t.rows|
    requires h in t.headers && h != name
    ensures h in WithColumn(t, name, values).headers
    ensures Column(WithColumn(t, name, values), h) == Column(t, h)
  {
    if name !in t.headers {
      IndexOfAppend(t.headers, h, name);
    }
  }
}
