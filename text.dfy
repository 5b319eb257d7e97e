/**
 * String helpers shared by the path and query builders: joining parts with a
 * separator character, splitting a string back into parts, and reading the
 * text after the first occurrence of a character.
 */
module Text {

  /** The parts with `sep` between neighbours; the empty sequence joins to "". */
  function Join(sep: char, parts: seq<string>): string
  {
    if |parts| == 0 then ""
    else if |parts| == 1 then parts[0]
    else parts[0] + [sep] + Join(sep, parts[1..])
  }

  /** The maximal `sep`-free pieces of `s`, in order; always at least one piece. */
  function Split(sep: char, s: string): (r: seq<string>)
    ensures |r| > 0
    ensures forall i :: 0 <= i < |r| ==> sep !in r[i]
    decreases |s|
  {
    if s == [] then [""]
    else
      var rest := Split(sep, s[1..]);
      if s[0] == sep then [""] + rest
      else [[s[0]] + rest[0]] + rest[1..]
  }

  /** The text after the first `sep` in `s`, or "" when `sep` does not occur. */
  function After(sep: char, s: string): string
    decreases |s|
  {
    if s == [] then ""
    else if s[0] == sep then s[1..]
    else After(sep, s[1..])
  }

  /** No part contains `sep`. */
  predicate Free(sep: char, parts: seq<string>)
  {
    forall i :: 0 <= i < |parts| ==> sep !in parts[i]
  }

  /** Splitting a `sep`-free prefix followed by more text glues the prefix onto the first piece. */
  lemma {:induction false} SplitAppend(sep: char, a: string, b: string)
    requires sep !in a
    ensures Split(sep, a + b) == [a + Split(sep, b)[0]] + Split(sep, b)[1..]
    decreases |a|
  {
    var tail := Split(sep, b);
    if a == [] {
      assert a + b == b;
      assert a + tail[0] == tail[0];
      assert tail == [tail[0]] + tail[1..];
    } else {
      assert (a + b)[0] == a[0];
      assert (a + b)[1..] == a[1..] + b;
      SplitAppend(sep, a[1..], b);
      var rest := Split(sep, a[1..] + b);
      assert rest[0] == a[1..] + tail[0] && rest[1..] == tail[1..];
      assert [a[0]] + (a[1..] + tail[0]) == a + tail[0];
    }
  }

  /** A separator after a `sep`-free prefix closes the first piece. */
  lemma SplitAtSeparator(sep: char, a: string, b: string)
    requires sep !in a
    ensures Split(sep, a + [sep] + b) == [a] + Split(sep, b)
  {
    SplitAppend(sep, a, [sep] + b);
    assert a + [sep] + b == a + ([sep] + b);
    assert ([sep] + b)[1..] == b;
    assert Split(sep, [sep] + b) == [""] + Split(sep, b);
    assert a + "" == a;
  }

  /** Splitting undoes joining, as long as no part contains the separator. */
  lemma {:induction false} SplitJoin(sep: char, parts: seq<string>)
    requires |parts| > 0 && Free(sep, parts)
    ensures Split(sep, Join(sep, parts)) == parts
    decreases |parts|
  {
    if |parts| == 1 {
      SplitAppend(sep, parts[0], "");
      assert parts[0] + "" == parts[0];
    } else {
      SplitJoin(sep, parts[1..]);
      SplitAtSeparator(sep, parts[0], Join(sep, parts[1..]));
    }
  }

  /** Joining undoes splitting: no character of `s` is lost or added. */
  lemma {:induction false} JoinSplit(sep: char, s: string)
    ensures Join(sep, Split(sep, s)) == s
    decreases |s|
  {
    if s != [] {
      var rest := Split(sep, s[1..]);
      JoinSplit(sep, s[1..]);
      if s[0] == sep {
        assert s == [sep] + s[1..];
      } else if |rest| == 1 {
        assert s == [s[0]] + s[1..];
      } else {
        assert rest == [rest[0]] + rest[1..];
        assert s == [s[0]] + s[1..];
      }
    }
  }

  /** Appending one part to a non-empty join adds the separator and the part. */
  lemma {:induction false} JoinSnoc(sep: char, parts: seq<string>, last: string)
    requires |parts| > 0
    ensures Join(sep, parts + [last]) == Join(sep, parts) + [sep] + last
    decreases |parts|
  {
    if |parts| > 1 {
      assert (parts + [last])[1..] == parts[1..] + [last];
      JoinSnoc(sep, parts[1..], last);
    } else {
      assert parts + [last] == [parts[0], last];
    }
  }

  /** The text after the first `sep` is everything after a `sep`-free prefix and one `sep`. */
  lemma {:induction false} AfterPrefix(sep: char, a: string, b: string)
    requires sep !in a
    ensures After(sep, a + [sep] + b) == b
    decreases |a|
  {
    if a == [] {
      assert a + [sep] + b == [sep] + b;
    } else {
      assert (a + [sep] + b)[1..] == a[1..] + [sep] + b;
      AfterPrefix(sep, a[1..], b);
    }
  }
}
