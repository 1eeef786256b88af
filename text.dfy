/**
 * PHP's `implode` over a one-character glue, and its inverse `explode`,
 * which the model uses to read a built URL or query string back into
 * the parts it was assembled from.
 */
module Text {

  /** Position of the first occurrence of `c` in `s`. */
  function IndexOf(s: string, c: char): (i: nat)
    requires c in s
    ensures i < |s| && s[i] == c && c !in s[..i]
  {
    if s[0] == c then 0 else 1 + IndexOf(s[1..], c)
  }

  /** `implode(sep, parts)`: the parts in order with one `sep` between neighbours. */
  function Join(sep: char, parts: seq<string>): string
  {
    if |parts| == 0 then ""
    else if |parts| == 1 then parts[0]
    else parts[0] + [sep] + Join(sep, parts[1..])
  }

  /** `explode(sep, s)`: the maximal pieces of `s` that do not contain `sep`. */
  function Split(sep: char, s: string): (parts: seq<string>)
    ensures |parts| > 0
    decreases |s|
  {
    if sep in s then
      var i := IndexOf(s, sep);
      [s[..i]] + Split(sep, s[i + 1..])
    else
      [s]
  }

  /** The first `sep` of `a + [sep] + b` is the one between them when `a` has none. */
  lemma IndexOfGlue(a: string, sep: char, b: string)
    requires sep !in a
    ensures sep in a + [sep] + b
    ensures IndexOf(a + [sep] + b, sep) == |a|
  {
    var s := a + [sep] + b;
    assert s[|a|] == sep;
  }

  /** Joining a part in front of a non-empty list adds it and one `sep`. */
  lemma JoinCons(sep: char, first: string, parts: seq<string>)
    requires |parts| > 0
    ensures Join(sep, [first] + parts) == first + [sep] + Join(sep, parts)
  {
    assert ([first] + parts)[1..] == parts;
  }

  /** Joining with `sep` adds one `sep` after every part but the last. */
  lemma {:induction false} JoinSnoc(sep: char, parts: seq<string>, last: string)
    requires |parts| > 0
    ensures Join(sep, parts + [last]) == Join(sep, parts) + [sep] + last
  {
    if |parts| == 1 {
      assert parts + [last] == [parts[0], last];
    } else {
      assert (parts + [last])[1..] == parts[1..] + [last];
      JoinSnoc(sep, parts[1..], last);
    }
  }

  /** The first part starts the joined string. */
  lemma JoinStartsWithFirst(sep: char, parts: seq<string>)
    requires |parts| > 0
    ensures |Join(sep, parts)| >= |parts[0]|
    ensures Join(sep, parts)[..|parts[0]|] == parts[0]
  {
  }

  /**
   * `explode` undoes `implode` when no part contains the glue: the
   * parts come back in order, one for one.
   */
  lemma {:induction false} SplitJoin(sep: char, parts: seq<string>)
    requires |parts| > 0
    requires forall i :: 0 <= i < |parts| ==> sep !in parts[i]
    ensures Split(sep, Join(sep, parts)) == parts
  {
    if |parts| > 1 {
      var rest := Join(sep, parts[1..]);
      var s := Join(sep, parts);
      assert s == parts[0] + [sep] + rest;
      IndexOfGlue(parts[0], sep, rest);
      assert s[..|parts[0]|] == parts[0];
      assert s[|parts[0]| + 1..] == rest;
      SplitJoin(sep, parts[1..]);
    }
  }
}
