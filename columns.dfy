/** The column resolver `encontrar_coluna`: the header a column is known
    by, found from a list of aliases. */
module Columns {
  import opened Options
  import opened Chars

  /** Python's `needle in hay` on strings. */
  predicate Contains(hay: string, needle: string) {
    exists i | 0 <= i <= |hay| - |needle| :: OccursAt(hay, needle, i)
  }

  predicate OccursAt(hay: string, needle: string, i: nat) {
    i + |needle| <= |hay| && hay[i..i + |needle|] == needle
  }

  /** `opcao.lower() in col.lower()`. */
  predicate Matches(alias: string, header: string) {
    Contains(LowerText(header), LowerText(alias))
  }

  /** The first header, from position `h` on, that the alias matches. */
  function FirstHeaderFrom(alias: string, headers: seq<string>, h: nat): (r: Option<string>)
    requires h <= |headers|
    decreases |headers| - h
  {
    if h == |headers| then None
    else if Matches(alias, headers[h]) then Some(headers[h])
    else FirstHeaderFrom(alias, headers, h + 1)
  }

  /** The answer of the first alias, from position `a` on, that matches any
      header. */
  function ResolveFrom(aliases: seq<string>, headers: seq<string>, a: nat): (r: Option<string>)
    requires a <= |aliases|
    decreases |aliases| - a
  {
    if a == |aliases| then None
    else match FirstHeaderFrom(aliases[a], headers, 0)
      case Some(col) => Some(col)
      case None => ResolveFrom(aliases, headers, a + 1)
  }

  /** What `encontrar_coluna` answers for a sheet with these headers. */
  function Resolve(aliases: seq<string>, headers: seq<string>): Option<string> {
    ResolveFrom(aliases, headers, 0)
  }

  /** `encontrar_coluna(df, opcoes)`, lines 88-93: aliases in the outer
      loop, headers in the inner one, the first match returned at once. */
  method FindColumn(headers: seq<string>, aliases: seq<string>) returns (r: Option<string>)
    ensures r == Resolve(aliases, headers)
  {
    var a := 0;
    while a < |aliases|
      invariant 0 <= a <= |aliases|
      invariant ResolveFrom(aliases, headers, a) == Resolve(aliases, headers)
    {
      var h := 0;
      while h < |headers|
        invariant 0 <= h <= |headers|
        invariant FirstHeaderFrom(aliases[a], headers, h) == FirstHeaderFrom(aliases[a], headers, 0)
      {
        if Matches(aliases[a], headers[h]) {
          return Some(headers[h]);
        }
        h := h + 1;
      }
      a := a + 1;
    }
    return None;
  }

  // ---- what the answer means

  lemma {:induction false} FirstHeaderNone(alias: string, headers: seq<string>, h: nat)
    requires h <= |headers|
    ensures FirstHeaderFrom(alias, headers, h).None? <==>
      forall m | h <= m < |headers| :: !Matches(alias, headers[m])
    decreases |headers| - h
  {
    if h < |headers| {
      FirstHeaderNone(alias, headers, h + 1);
    }
  }

  lemma {:induction false} FirstHeaderSome(alias: string, headers: seq<string>, h: nat)
    requires h <= |headers| && FirstHeaderFrom(alias, headers, h).Some?
    ensures exists m | h <= m < |headers| ::
      FirstHeaderFrom(alias, headers, h) == Some(headers[m]) && Matches(alias, headers[m]) &&
      forall m' | h <= m' < m :: !Matches(alias, headers[m'])
    decreases |headers| - h
  {
    if !Matches(alias, headers[h]) {
      FirstHeaderSome(alias, headers, h + 1);
    }
  }

  lemma {:induction false} ResolveNoneFrom(aliases: seq<string>, headers: seq<string>, a: nat)
    requires a <= |aliases|
    ensures ResolveFrom(aliases, headers, a).None? <==>
      forall n, m | a <= n < |aliases| && 0 <= m < |headers| :: !Matches(aliases[n], headers[m])
    decreases |aliases| - a
  {
    if a < |aliases| {
      FirstHeaderNone(aliases[a], headers, 0);
      ResolveNoneFrom(aliases, headers, a + 1);
    }
  }

  /** No column is found exactly when no alias, lowered, occurs in any
      header, lowered. */
  lemma NotFound(aliases: seq<string>, headers: seq<string>)
    ensures Resolve(aliases, headers).None? <==>
      forall n, m | 0 <= n < |aliases| && 0 <= m < |headers| :: !Matches(aliases[n], headers[m])
  {
    ResolveNoneFrom(aliases, headers, 0);
  }

  lemma {:induction false} ResolveSomeFrom(aliases: seq<string>, headers: seq<string>, a: nat)
    requires a <= |aliases| && ResolveFrom(aliases, headers, a).Some?
    ensures exists n, m | a <= n < |aliases| && 0 <= m < |headers| ::
      ResolveFrom(aliases, headers, a) == Some(headers[m]) && Matches(aliases[n], headers[m]) &&
      (forall n', m' | a <= n' < n && 0 <= m' < |headers| :: !Matches(aliases[n'], headers[m'])) &&
      (forall m' | 0 <= m' < m :: !Matches(aliases[n], headers[m']))
    decreases |aliases| - a
  {
    FirstHeaderNone(aliases[a], headers, 0);
    if FirstHeaderFrom(aliases[a], headers, 0).Some? {
      FirstHeaderSome(aliases[a], headers, 0);
    } else {
      ResolveSomeFrom(aliases, headers, a + 1);
    }
  }

  /** A found column is a header that the chosen alias matches; every
      earlier alias matches no header, and no earlier header matches the
      chosen alias: alias order comes before header order. */
  lemma Found(aliases: seq<string>, headers: seq<string>)
    requires Resolve(aliases, headers).Some?
    ensures exists n, m | 0 <= n < |aliases| && 0 <= m < |headers| ::
      Resolve(aliases, headers) == Some(headers[m]) && Matches(aliases[n], headers[m]) &&
      (forall n', m' | 0 <= n' < n && 0 <= m' < |headers| :: !Matches(aliases[n'], headers[m'])) &&
      (forall m' | 0 <= m' < m :: !Matches(aliases[n], headers[m']))
  {
    ResolveSomeFrom(aliases, headers, 0);
  }

  /** A header holding an alias is at least as long as the alias, so with
      non-empty aliases a found column is never the empty (falsy) name. */
  lemma FoundNonEmpty(aliases: seq<string>, headers: seq<string>)
    requires forall n | 0 <= n < |aliases| :: aliases[n] != []
    requires Resolve(aliases, headers).Some?
    ensures Resolve(aliases, headers).value != []
  {
    Found(aliases, headers);
    var n, m :| 0 <= n < |aliases| && 0 <= m < |headers| &&
      Resolve(aliases, headers) == Some(headers[m]) && Matches(aliases[n], headers[m]);
    assert |LowerText(headers[m])| >= |LowerText(aliases[n])|;
  }
}
