/**
 * The query string `callAPI` builds from its arguments: one `key=value`
 * segment per argument in argument order, joined by `&`. The value goes
 * through `urlencode`; the key does not, and it gets a `$` in front only
 * when it is one of the reserved names in `$validArguments`.
 */
module Query {
  import opened Wrappers
  import opened Text
  import opened FormEncoding

  /** `GOVDataRequest::$validArguments`: the keys written with a `$` in front. */
  const ReservedArguments: set<string> := {"top", "skip", "select", "orderby", "filter"}

  /** A PHP argument array: its keys with their values, in insertion order. */
  type Arguments = seq<(string, string)>

  function Sigil(key: string): string
  {
    if key in ReservedArguments then "$" else ""
  }

  /** One segment of the query, as the loop body appends it. */
  function QuerySegment(key: string, value: string): string
  {
    Sigil(key) + key + "=" + UrlEncode(value)
  }

  /** The segments of all arguments, in argument order. */
  function QuerySegments(args: Arguments): (segs: seq<string>)
    ensures |segs| == |args|
  {
    if |args| == 0 then [] else [QuerySegment(args[0].0, args[0].1)] + QuerySegments(args[1..])
  }

  /** One more argument adds its segment at the end. */
  lemma {:induction false} QuerySegmentsSnoc(args: Arguments, key: string, value: string)
    ensures QuerySegments(args + [(key, value)]) == QuerySegments(args) + [QuerySegment(key, value)]
  {
    if |args| > 0 {
      assert (args + [(key, value)])[1..] == args[1..] + [(key, value)];
      QuerySegmentsSnoc(args[1..], key, value);
    }
  }

  /** The `i`-th segment is the segment of the `i`-th argument. */
  lemma {:induction false} QuerySegmentsAt(args: Arguments, i: nat)
    requires i < |args|
    ensures QuerySegments(args)[i] == QuerySegment(args[i].0, args[i].1)
  {
    if i > 0 {
      QuerySegmentsAt(args[1..], i - 1);
    }
  }

  /** `implode('&', $query)` after the loop over the arguments. */
  function QueryString(args: Arguments): string
  {
    Join('&', QuerySegments(args))
  }

  /** The loop of `callAPI` that fills `$query`, followed by the `implode`. */
  method BuildQuery(args: Arguments) returns (query: string)
    ensures query == QueryString(args)
  {
    var parts: seq<string> := [];
    for i := 0 to |args|
      invariant parts == QuerySegments(args[..i])
    {
      var (key, value) := args[i];
      assert args[..i + 1] == args[..i] + [(key, value)];
      QuerySegmentsSnoc(args[..i], key, value);
      if key in ReservedArguments {
        parts := parts + ["$" + key + "=" + UrlEncode(value)];
      } else {
        assert Sigil(key) + key == key;
        parts := parts + [key + "=" + UrlEncode(value)];
      }
    }
    assert args[..|args|] == args;
    query := Join('&', parts);
  }

  /** A key `callAPI` can pass through unencoded without breaking the query apart. */
  predicate PlainKey(key: string)
  {
    '&' !in key && '=' !in key
  }

  predicate PlainKeys(args: Arguments)
  {
    forall i :: 0 <= i < |args| ==> PlainKey(args[i].0)
  }

  /** One segment read back: the key as written before the first `=`, and the decoded value bytes. */
  function ParseSegment(seg: string): Option<(string, seq<Byte>)>
  {
    if '=' in seg then
      var i := IndexOf(seg, '=');
      match FormDecode(seg[i + 1..])
      case None => None
      case Some(bytes) => Some((seg[..i], bytes))
    else None
  }

  function ParseSegments(segs: seq<string>): Option<seq<(string, seq<Byte>)>>
  {
    if |segs| == 0 then Some([])
    else
      match (ParseSegment(segs[0]), ParseSegments(segs[1..]))
      case (Some(p), Some(ps)) => Some([p] + ps)
      case _ => None
  }

  /** A query string read back into its keys and value bytes. */
  function ParseQuery(q: string): Option<seq<(string, seq<Byte>)>>
  {
    if q == "" then Some([]) else ParseSegments(Split('&', q))
  }

  /** What each argument turns into on the wire: the key with its sigil, and the UTF-8 bytes of the value. */
  function Sent(args: Arguments): (sent: seq<(string, seq<Byte>)>)
    ensures |sent| == |args|
  {
    if |args| == 0 then [] else [(Sigil(args[0].0) + args[0].0, Utf8(args[0].1))] + Sent(args[1..])
  }

  /** A segment holds no `&`, and reads back as its key with sigil and its value. */
  lemma SegmentReadsBack(key: string, value: string)
    requires PlainKey(key)
    ensures '&' !in QuerySegment(key, value)
    ensures ParseSegment(QuerySegment(key, value)) == Some((Sigil(key) + key, Utf8(value)))
  {
    var seg := QuerySegment(key, value);
    var k := Sigil(key) + key;
    assert seg == k + ['='] + UrlEncode(value);
    UrlEncodeHasNoSeparators(value);
    IndexOfGlue(k, '=', UrlEncode(value));
    assert seg[..|k|] == k;
    assert seg[|k| + 1..] == UrlEncode(value);
    UrlEncodeRoundTrip(value);
  }

  lemma {:induction false} SegmentsReadBack(args: Arguments)
    requires PlainKeys(args)
    ensures ParseSegments(QuerySegments(args)) == Some(Sent(args))
  {
    if |args| > 0 {
      SegmentReadsBack(args[0].0, args[0].1);
      assert PlainKeys(args[1..]) by {
        assert forall i :: 0 <= i < |args[1..]| ==> args[1..][i] == args[i + 1];
      }
      SegmentsReadBack(args[1..]);
      var segs := [QuerySegment(args[0].0, args[0].1)] + QuerySegments(args[1..]);
      assert segs[1..] == QuerySegments(args[1..]);
    }
  }

  /**
   * The query string has exactly one segment per argument, in argument
   * order: split at `&` and decoded, it gives back every key (with `$`
   * exactly on the reserved ones, never encoded) and every value.
   */
  lemma QueryRoundTrip(args: Arguments)
    requires PlainKeys(args)
    ensures ParseQuery(QueryString(args)) == Some(Sent(args))
  {
    var segs := QuerySegments(args);
    if |args| == 0 {
      assert Sent(args) == [];
    } else {
      forall i | 0 <= i < |segs|
        ensures '&' !in segs[i]
      {
        QuerySegmentsAt(args, i);
        SegmentReadsBack(args[i].0, args[i].1);
      }
      JoinStartsWithFirst('&', segs);
      assert QueryString(args) != "";
      SplitJoin('&', segs);
      SegmentsReadBack(args);
    }
  }

  /** A reserved key gets a `$`; a digit is not encoded. */
  lemma TopSegment()
    ensures QuerySegment("top", "5") == "$top=5"
  {
    assert Utf8("5") == ['5' as int];
  }

  /** A space in a value becomes `+`. */
  lemma FilterSegment()
    ensures QuerySegment("filter", "a b") == "$filter=a+b"
  {
    SpaceBecomesPlus();
  }

  lemma TwoArguments(first: (string, string), second: (string, string))
    ensures QuerySegments([first, second]) == [QuerySegment(first.0, first.1)] + [QuerySegment(second.0, second.1)]
  {
    assert [first, second][1..] == [second];
  }

  /** Two arguments give two segments joined by `&`. */
  lemma QueryExample()
    ensures QueryString([("top", "5"), ("filter", "a b")]) == "$top=5&$filter=a+b"
  {
    TopSegment();
    FilterSegment();
    TwoArguments(("top", "5"), ("filter", "a b"));
    JoinCons('&', "$top=5", ["$filter=a+b"]);
  }
}
