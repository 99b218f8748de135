/** PostgREST query strings as app/repository/thread.py and app/repository/extension_files.py
    build them: parameters joined by `&`, filter values passed through `urllib.parse.quote`,
    column lists joined by `,`. A query read back at its `&` separators gives exactly the
    parameters it was built from. */
module RestQuery {

  import opened Outcome
  import opened Text
  import Percent

  /** `urllib.parse.quote` with its default safe characters, which never leaves the `&` that
      separates query parameters in its output. */
  function Quote(v: string): (r: string)
    ensures '&' !in r
  {
    Percent.EncodedHasNoSeparators(v, Percent.PyQuote);
    Percent.Encode(v, Percent.PyQuote)
  }

  /** The server reads the quoted value back as it was. */
  lemma QuoteReadsBack(v: string)
    ensures Percent.Decode(Quote(v)) == Some(v)
  {
    Percent.DecodeEncode(v, Percent.PyQuote);
  }

  /** A PostgREST equality filter `column=eq.<quoted value>`. */
  function Eq(column: string, value: string): string {
    column + "=eq." + Quote(value)
  }

  function Query(parts: seq<string>): string {
    Join("&", parts)
  }

  predicate Separable(parts: seq<string>) {
    forall k :: 0 <= k < |parts| ==> '&' !in parts[k]
  }

  lemma SeparableAppend(a: seq<string>, b: seq<string>)
    requires Separable(a) && Separable(b)
    ensures Separable(a + b)
  {
    forall k | 0 <= k < |a + b| ensures '&' !in (a + b)[k] {
      if k >= |a| {
        assert (a + b)[k] == b[k - |a|];
      }
    }
  }

  /** The parameters a server reads from a query are the parts it was built from. */
  lemma QueryParts(parts: seq<string>)
    requires parts != [] && Separable(parts)
    ensures Split(Query(parts), '&') == parts
  {
    SplitJoin(parts, '&');
  }

  /** `"select=" + ",".join(columns)`. */
  function Select(columns: seq<string>): string {
    "select=" + Join(",", columns)
  }

  lemma SelectSeparable(columns: seq<string>)
    requires Separable(columns)
    ensures '&' !in Select(columns)
  {
    JoinAvoids(",", columns, '&');
  }

  lemma NumberPart(name: string, n: int)
    requires '&' !in name
    ensures '&' !in name + IntToString(n)
    ensures (name + IntToString(n))[|name|..] == IntToString(n)
  {
    var t := IntToString(n);
    IntToStringChars(n);
    assert forall k :: 0 <= k < |t| ==> t[k] != '&';
  }

  lemma EqSeparable(column: string, value: string)
    requires '&' !in column
    ensures '&' !in Eq(column, value)
  {
  }

  lemma OrderSeparable(name: string, direction: string)
    requires direction == "asc" || direction == "desc"
    requires '&' !in name
    ensures '&' !in name + direction
  {
  }
}
