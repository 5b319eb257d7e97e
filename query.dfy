/**
 * The query string PHP's `http_build_query` makes from a flat array of
 * string keys and values: every entry becomes `key=value`, with key and
 * value passed through the URL escaping, and the entries are joined by `&`.
 * The escaping itself belongs to PHP and is a parameter here.
 */
module Query {
  import opened Text

  /** One entry of the caller's parameter array, in array order. */
  datatype Pair = Pair(key: string, value: string)

  /** The `key=value` field emitted for one entry. */
  function Field(p: Pair, escape: string -> string): string
  {
    escape(p.key) + "=" + escape(p.value)
  }

  /** The fields of all entries, in order. */
  function Fields(ps: seq<Pair>, escape: string -> string): seq<string>
  {
    seq(|ps|, i requires 0 <= i < |ps| => Field(ps[i], escape))
  }

  /**
   * `http_build_query` on a flat array of strings: nothing for an empty
   * array, otherwise a text that starts with the first entry's field.
   */
  function BuildQuery(ps: seq<Pair>, escape: string -> string): (r: string)
    ensures |ps| == 0 <==> r == ""
    ensures |ps| > 0 ==> Field(ps[0], escape) <= r
    ensures |ps| == 1 ==> r == Field(ps[0], escape)
  {
    assert |ps| > 0 ==> '=' in Field(ps[0], escape);
    Join('&', Fields(ps, escape))
  }

  /** A query of several entries is the first entry's field, `&`, and the query of the rest. */
  lemma BuildQueryCons(ps: seq<Pair>, escape: string -> string)
    requires |ps| > 1
    ensures BuildQuery(ps, escape) == Field(ps[0], escape) + "&" + BuildQuery(ps[1..], escape)
  {
    assert Fields(ps, escape)[1..] == Fields(ps[1..], escape);
  }

  /** The escaping never produces the two characters that delimit entries and their halves. */
  ghost predicate Delimiting(escape: string -> string)
  {
    forall s :: '&' !in escape(s) && '=' !in escape(s)
  }

  /** `unescape` recovers every string from its escaped form. */
  ghost predicate Inverts(unescape: string -> string, escape: string -> string)
  {
    forall s :: unescape(escape(s)) == s
  }

  /**
   * Reference decoder for a query string (the reading a server gives it):
   * entries are the `&`-separated pieces, a key ends at the first `=`.
   */
  function DecodeQuery(q: string, unescape: string -> string): seq<Pair>
  {
    var entries := Split('&', q);
    seq(|entries|, i requires 0 <= i < |entries| => DecodeField(entries[i], unescape))
  }

  function DecodeField(f: string, unescape: string -> string): Pair
  {
    var halves := Split('=', f);
    Pair(unescape(halves[0]), unescape(Join('=', halves[1..])))
  }

  /** No field contains `&`, so the fields are exactly the `&`-separated pieces of the query. */
  lemma FieldsAreAmpersandFree(ps: seq<Pair>, escape: string -> string)
    requires Delimiting(escape)
    ensures Free('&', Fields(ps, escape))
  {
  }

  /** Splitting the query on `&` gives back one field per entry, in order. */
  lemma SplitQuery(ps: seq<Pair>, escape: string -> string)
    requires |ps| > 0 && Delimiting(escape)
    ensures Split('&', BuildQuery(ps, escape)) == Fields(ps, escape)
  {
    FieldsAreAmpersandFree(ps, escape);
    SplitJoin('&', Fields(ps, escape));
  }

  /** Decoding one field recovers the entry it was built from. */
  lemma DecodeFieldOfField(p: Pair, escape: string -> string, unescape: string -> string)
    requires Delimiting(escape) && Inverts(unescape, escape)
    ensures DecodeField(Field(p, escape), unescape) == p
  {
    var k, v := escape(p.key), escape(p.value);
    assert '=' !in k && '=' !in v;
    assert Field(p, escape) == Join('=', [k, v]);
    SplitJoin('=', [k, v]);
    assert [k, v][1..] == [v];
  }

  /**
   * The query string is a faithful encoding of a non-empty parameter array:
   * decoding it gives back every entry, in order.
   */
  lemma DecodeBuildQuery(ps: seq<Pair>, escape: string -> string, unescape: string -> string)
    requires |ps| > 0 && Delimiting(escape) && Inverts(unescape, escape)
    ensures DecodeQuery(BuildQuery(ps, escape), unescape) == ps
  {
    SplitQuery(ps, escape);
    var decoded := DecodeQuery(BuildQuery(ps, escape), unescape);
    forall i | 0 <= i < |ps|
      ensures decoded[i] == ps[i]
    {
      DecodeFieldOfField(ps[i], escape, unescape);
    }
  }
}
