/**
 * The URL of the quarry host. The method and the `table_alias` argument
 * become the first two path segments, and every other argument follows
 * as a `/key/value` pair in argument order. Nothing is URL-encoded.
 */
module Quarry {
  import opened Wrappers
  import opened Text
  import opened Query

  const TableAlias: string := "table_alias"
  const ImproperInput: string := "ERROR: Improper input parameters."

  /** PHP's `empty` on a string: `""` and `"0"` are empty. */
  predicate PhpEmpty(s: string)
  {
    s == "" || s == "0"
  }

  /** `$arguments[key]`, `None` for a missing key. */
  function Lookup(args: Arguments, key: string): (v: Option<string>)
    ensures v.None? <==> forall i :: 0 <= i < |args| ==> args[i].0 != key
    ensures v.Some? ==> exists i :: 0 <= i < |args| && args[i] == (key, v.value)
  {
    if |args| == 0 then None
    else if args[0].0 == key then Some(args[0].1)
    else Lookup(args[1..], key)
  }

  /** `unset($arguments[key])`: the other arguments, in their order. */
  function Without(args: Arguments, key: string): (rest: Arguments)
    ensures |rest| <= |args|
  {
    if |args| == 0 then []
    else if args[0].0 == key then Without(args[1..], key)
    else [args[0]] + Without(args[1..], key)
  }

  /** `[k1, v1, k2, v2, ...]`: the path segments the arguments become. */
  function PairSegments(args: Arguments): (segs: seq<string>)
    ensures |segs| == 2 * |args|
  {
    if |args| == 0 then [] else [args[0].0, args[0].1] + PairSegments(args[1..])
  }

  /** `unset` keeps exactly the arguments with a different key. */
  lemma {:induction false} WithoutKeeps(args: Arguments, key: string)
    ensures forall p :: p in Without(args, key) <==> p in args && p.0 != key
  {
    if |args| > 0 {
      WithoutKeeps(args[1..], key);
      assert args == [args[0]] + args[1..];
    }
  }

  /** Argument `i` becomes segments `2i` (its key) and `2i + 1` (its value). */
  /** `unset` keeps the order of what remains: it works on each part of the list separately. */
  lemma {:induction false} WithoutAppend(front: Arguments, back: Arguments, key: string)
    ensures Without(front + back, key) == Without(front, key) + Without(back, key)
  {
    if |front| > 0 {
      assert (front + back)[1..] == front[1..] + back;
      WithoutAppend(front[1..], back, key);
    } else {
      assert front + back == back;
    }
  }

  /** `unset` of a key no argument has leaves the arguments exactly as they were. */
  lemma {:induction false} WithoutAbsentKey(args: Arguments, key: string)
    requires forall i :: 0 <= i < |args| ==> args[i].0 != key
    ensures Without(args, key) == args
  {
    if |args| > 0 {
      WithoutAbsentKey(args[1..], key);
      assert args == [args[0]] + args[1..];
    }
  }

  lemma {:induction false} PairSegmentsAt(args: Arguments, i: nat)
    requires i < |args|
    ensures PairSegments(args)[2 * i] == args[i].0 && PairSegments(args)[2 * i + 1] == args[i].1
  {
    if i > 0 {
      PairSegmentsAt(args[1..], i - 1);
      assert PairSegments(args)[2 * i] == PairSegments(args[1..])[2 * (i - 1)];
      assert PairSegments(args)[2 * i + 1] == PairSegments(args[1..])[2 * (i - 1) + 1];
    }
  }

  /**
   * The quarry URL, or `None` when `table_alias` is missing or PHP-empty,
   * or the method is PHP-empty (the source then returns the fixed error
   * text).
   */
  function QuarryTarget(host: string, methodName: string, args: Arguments): (url: Option<string>)
    ensures url.None? <==> Lookup(args, TableAlias).None? || PhpEmpty(Lookup(args, TableAlias).value) || PhpEmpty(methodName)
  {
    match Lookup(args, TableAlias)
    case Some(alias) =>
      if !PhpEmpty(alias) && !PhpEmpty(methodName) then
        Some(host + "/" + Join('/', [methodName, alias] + PairSegments(Without(args, TableAlias))))
      else None
    case None => None
  }

  /** The check and the loop of the quarry branch, building `$get_url`. */
  method BuildQuarryUrl(host: string, methodName: string, args: Arguments) returns (url: Option<string>)
    ensures url == QuarryTarget(host, methodName, args)
  {
    var alias := Lookup(args, TableAlias);
    if alias.Some? && !PhpEmpty(alias.value) && !PhpEmpty(methodName) {
      var getUrl := host + "/" + methodName + "/" + alias.value;
      var rest := Without(args, TableAlias);
      ghost var head := [methodName, alias.value];
      assert Join('/', head) == methodName + "/" + alias.value by {
        assert head[1..] == [alias.value];
      }
      for i := 0 to |rest|
        invariant getUrl == host + "/" + Join('/', head + PairSegments(rest[..i]))
      {
        var (filterKey, filterValue) := rest[i];
        assert rest[..i + 1] == rest[..i] + [(filterKey, filterValue)];
        JoinPairStep(head, rest[..i], filterKey, filterValue);
        getUrl := getUrl + "/" + filterKey + "/" + filterValue;
      }
      assert rest[..|rest|] == rest;
      url := Some(getUrl);
    } else {
      url := None;
    }
  }

  /** One turn of the loop: the next argument adds `/key/value` to the joined path. */
  lemma JoinPairStep(head: seq<string>, done: Arguments, k: string, v: string)
    requires |head| > 0
    ensures Join('/', head + PairSegments(done + [(k, v)]))
         == Join('/', head + PairSegments(done)) + "/" + k + "/" + v
  {
    var before := head + PairSegments(done);
    PairSegmentsSnoc(done, (k, v));
    assert head + PairSegments(done + [(k, v)]) == before + [k] + [v];
    JoinTwoMore(before, k, v);
  }

  lemma JoinTwoMore(parts: seq<string>, k: string, v: string)
    requires |parts| > 0
    ensures Join('/', parts + [k] + [v]) == Join('/', parts) + "/" + k + "/" + v
  {
    JoinSnoc('/', parts, k);
    JoinSnoc('/', parts + [k], v);
  }

  lemma {:induction false} PairSegmentsSnoc(args: Arguments, last: (string, string))
    ensures PairSegments(args + [last]) == PairSegments(args) + [last.0, last.1]
  {
    if |args| > 0 {
      assert (args + [last])[1..] == args[1..] + [last];
      PairSegmentsSnoc(args[1..], last);
    }
  }

  /** No segment holds a `/`. */
  predicate PlainSegments(segs: seq<string>)
  {
    forall i :: 0 <= i < |segs| ==> '/' !in segs[i]
  }

  lemma {:induction false} PairSegmentsPlain(args: Arguments)
    requires forall p :: p in args ==> '/' !in p.0 && '/' !in p.1
    ensures PlainSegments(PairSegments(args))
  {
    if |args| > 0 {
      assert args[0] in args;
      assert forall p :: p in args[1..] ==> p in args;
      PairSegmentsPlain(args[1..]);
    }
  }

  /**
   * When no method, alias, key or value holds a `/`, the path after the
   * host splits back into the method, the alias, and the other
   * arguments as key/value pairs in order; `table_alias` is not among
   * them.
   */
  lemma QuarryPathReadsBack(host: string, methodName: string, args: Arguments)
    requires QuarryTarget(host, methodName, args).Some?
    requires '/' !in methodName && '/' !in Lookup(args, TableAlias).value
    requires forall p :: p in args ==> '/' !in p.0 && '/' !in p.1
    ensures var url := QuarryTarget(host, methodName, args).value;
            var rest := Without(args, TableAlias);
            && url[..|host| + 1] == host + "/"
            && Split('/', url[|host| + 1..]) == [methodName, Lookup(args, TableAlias).value] + PairSegments(rest)
            && forall p :: p in rest ==> p.0 != TableAlias
  {
    var rest := Without(args, TableAlias);
    WithoutKeeps(args, TableAlias);
    PairSegmentsPlain(rest);
    var pairs := PairSegments(rest);
    var segs := [methodName, Lookup(args, TableAlias).value] + pairs;
    assert PlainSegments(segs) by {
      forall j | 2 <= j < |segs|
        ensures '/' !in segs[j]
      {
        assert segs[j] == pairs[j - 2];
      }
    }
    var url := host + "/" + Join('/', segs);
    assert QuarryTarget(host, methodName, args).value == url;
    assert url[|host| + 1..] == Join('/', segs);
    SplitJoin('/', segs);
  }

  /** `{table_alias: "t1", year: "2020"}` with method `data` gives `{host}/data/t1/year/2020`. */
  lemma QuarryExample(host: string)
    ensures QuarryTarget(host, "data", [("table_alias", "t1"), ("year", "2020")]) == Some(host + "/data/t1/year/2020")
  {
    var args := [("table_alias", "t1"), ("year", "2020")];
    assert Lookup(args, TableAlias) == Some("t1");
    assert args[1..][1..] == [];
    assert Without(args, TableAlias) == [("year", "2020")];
    assert PairSegments([("year", "2020")]) == ["year", "2020"];
    var segs := ["data", "t1", "year", "2020"];
    assert ["data", "t1"] + PairSegments([("year", "2020")]) == segs;
    JoinCons('/', "year", ["2020"]);
    JoinCons('/', "t1", ["year", "2020"]);
    JoinCons('/', "data", ["t1", "year", "2020"]);
    assert segs == ["data"] + ["t1", "year", "2020"];
    assert ["t1", "year", "2020"] == ["t1"] + ["year", "2020"];
    assert ["year", "2020"] == ["year"] + ["2020"];
    assert Join('/', segs) == "data/t1/year/2020";
    assert host + "/" + "data/t1/year/2020" == host + "/data/t1/year/2020";
  }

  /** Without `table_alias` the branch answers with the fixed error text. */
  lemma MissingAliasIsImproper(host: string, methodName: string, args: Arguments)
    requires forall i :: 0 <= i < |args| ==> args[i].0 != TableAlias
    ensures QuarryTarget(host, methodName, args) == None
  {
  }
}
