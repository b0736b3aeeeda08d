/**
 * Reading a URL back into its path and its `&`-separated query parameters:
 * the reference against which the URLs the adapter and the bridge build are
 * checked.
 */
module QueryString {
  import opened JsString

  /** `s.split(sep)`. */
  function Split(s: string, sep: char): (r: seq<string>)
    ensures |r| >= 1
    decreases |s|
  {
    if s == [] then [""]
    else
      var rest := Split(s[1..], sep);
      if s[0] == sep then [""] + rest
      else [[s[0]] + rest[0]] + rest[1..]
  }

  /** `parts.join(sep)`. */
  function Join(parts: seq<string>, sep: char): string
    decreases |parts|
  {
    if |parts| == 0 then ""
    else if |parts| == 1 then parts[0]
    else parts[0] + [sep] + Join(parts[1..], sep)
  }

  /** Joining the pieces of a split gives back the string. */
  lemma {:induction false} SplitJoin(s: string, sep: char)
    ensures Join(Split(s, sep), sep) == s
    decreases |s|
  {
    if s != [] {
      SplitJoin(s[1..], sep);
      var rest := Split(s[1..], sep);
      if s[0] == sep {
        assert ([""] + rest)[1..] == rest;
      } else {
        var r := [[s[0]] + rest[0]] + rest[1..];
        if |rest| > 1 {
          assert r[1..] == rest[1..];
        }
      }
    }
  }

  /** A string without the separator is a single piece. */
  lemma {:induction false} SplitFree(s: string, sep: char)
    requires sep !in s
    ensures Split(s, sep) == [s]
    decreases |s|
  {
    if s != [] {
      SplitFree(s[1..], sep);
      assert [s[0]] + s[1..] == s;
    }
  }

  /** A piece without the separator, then the separator, starts a new piece. */
  lemma {:induction false} SplitAfterPiece(a: string, sep: char, b: string)
    requires sep !in a
    ensures Split(a + [sep] + b, sep) == [a] + Split(b, sep)
    decreases |a|
  {
    var s := a + [sep] + b;
    if a == [] {
      assert s[1..] == b;
    } else {
      assert s[1..] == a[1..] + [sep] + b;
      SplitAfterPiece(a[1..], sep, b);
      assert [a[0]] + a[1..] == a;
    }
  }

  /** Two pieces without the separator, joined by it, split back into the two. */
  lemma SplitTwo(a: string, sep: char, b: string)
    requires sep !in a && sep !in b
    ensures Split(a + [sep] + b, sep) == [a, b]
  {
    SplitAfterPiece(a, sep, b);
    SplitFree(b, sep);
  }

  /** The part of a URL before the first `?`. */
  function Path(url: string): string {
    var i := IndexOf(url, "?");
    if i == -1 then url else url[..i]
  }

  /** The part of a URL after the first `?`. */
  function Query(url: string): string {
    var i := IndexOf(url, "?");
    if i == -1 then "" else url[i + 1..]
  }

  /** The query parameters of a URL, in order. */
  function Params(url: string): seq<string> {
    Split(Query(url), '&')
  }

  /** A path without `?` followed by `?` and a query reads back as that path and query. */
  lemma UrlParts(path: string, query: string)
    requires '?' !in path
    ensures Path(path + "?" + query) == path
    ensures Query(path + "?" + query) == query
  {
    IndexOfFirstChar(path, '?', query);
    assert path + "?" + query == path + ['?'] + query;
  }

  /** The concatenation of strings none of which holds `c` does not hold `c`. */
  lemma {:induction false} NoMarkIn(parts: seq<string>, c: char)
    requires forall k :: 0 <= k < |parts| ==> c !in parts[k]
    ensures c !in Concat(parts)
    decreases |parts|
  {
    if parts != [] {
      NoMarkIn(parts[..|parts| - 1], c);
    }
  }

  /** The strings of `parts`, concatenated in order. */
  function Concat(parts: seq<string>): string
    decreases |parts|
  {
    if parts == [] then "" else Concat(parts[..|parts| - 1]) + parts[|parts| - 1]
  }
}
