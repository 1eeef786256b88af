/**
 * What `callAPI` makes of a reply: the decoded JSON of the primary host,
 * and the children of the XML document of the civic-data host.
 */
module Response {
  import opened Wrappers
  import opened JsonValue

  const ConnectionFailed: string := "Connection to host failed."

  /** The path of `isset($results->error->message->value)`. */
  const ErrorPath: seq<string> := ["error", "message", "value"]

  /** `isset($body->error->message->value)`, step by step. */
  lemma ErrorPathSteps(body: Json)
    ensures IsSetPath(body, ErrorPath) <==>
              && body.JObject? && "error" in body.fields
              && body.fields["error"].JObject? && "message" in body.fields["error"].fields
              && body.fields["error"].fields["message"].JObject?
              && "value" in body.fields["error"].fields["message"].fields
              && body.fields["error"].fields["message"].fields["value"] != JNull
    ensures IsSetPath(body, ErrorPath) ==>
              PathValue(body, ErrorPath) == body.fields["error"].fields["message"].fields["value"]
  {
    assert ErrorPath == ["error"] + ["message", "value"];
    PathStep(body, "error", ["message", "value"]);
    if body.JObject? && "error" in body.fields {
      var e := body.fields["error"];
      assert ["message", "value"] == ["message"] + ["value"];
      PathStep(e, "message", ["value"]);
      if e.JObject? && "message" in e.fields {
        PathStep(e.fields["message"], "value", []);
      }
    }
  }

  /** `isset($d->results)`. */
  lemma ResultsStep(d: Json)
    ensures IsSetPath(d, ["results"]) <==> d.JObject? && "results" in d.fields && d.fields["results"] != JNull
  {
  }

  /**
   * The intended normalisation of the primary host's reply. On HTTP 200
   * the result is the `d` property, replaced by its `results` property
   * when `d` is an object whose `results` is set. On any other code it
   * is the API's `error.message.value` when set, else the fixed
   * connection-failure text.
   */
  function Normalise(code: int, body: Json): (r: Json)
    ensures code == 200 && !Property(body, "d").JObject? ==> r == Property(body, "d")
    ensures code == 200 && Property(body, "d").JObject? ==>
              var d := Property(body, "d");
              r == if "results" in d.fields && d.fields["results"] != JNull then d.fields["results"] else d
    ensures code != 200 ==>
              r == if && body.JObject? && "error" in body.fields
                      && body.fields["error"].JObject? && "message" in body.fields["error"].fields
                      && body.fields["error"].fields["message"].JObject?
                      && "value" in body.fields["error"].fields["message"].fields
                      && body.fields["error"].fields["message"].fields["value"] != JNull
                   then body.fields["error"].fields["message"].fields["value"]
                   else JString(ConnectionFailed)
  {
    ErrorPathSteps(body);
    ResultsStep(Property(body, "d"));
    if code == 200 then
      var d := Property(body, "d");
      if d.JObject? && IsSetPath(d, ["results"]) then Property(d, "results") else d
    else if IsSetPath(body, ErrorPath) then PathValue(body, ErrorPath)
    else JString(ConnectionFailed)
  }

  /**
   * The normalisation as the source is written. `instanceof stdClass`
   * stands inside `namespace USDOL`, so it names the class
   * `USDOL\stdClass`, which does not exist, and the test is false for
   * every value: on HTTP 200 the result is always `d` itself.
   */
  function NormaliseAsWritten(code: int, body: Json): (r: Json)
    ensures code == 200 ==> r == Property(body, "d")
    ensures code != 200 ==> r == Normalise(code, body)
  {
    if code == 200 then Property(body, "d")
    else if IsSetPath(body, ErrorPath) then PathValue(body, ErrorPath)
    else JString(ConnectionFailed)
  }

  /**
   * The two differ exactly on a successful reply whose `d` is an object
   * with a `results` property that is set and differs from `d`.
   */
  lemma AsWrittenDiffersExactlyOnUnwrap(code: int, body: Json)
    ensures NormaliseAsWritten(code, body) != Normalise(code, body) <==>
              var d := Property(body, "d");
              code == 200 && d.JObject? && IsSetPath(d, ["results"]) && d.fields["results"] != d
  {
  }

  /** `{"d":{"results":[{"a":1}]}}` with code 200: the written code returns the wrapper object. */
  lemma StdClassTestMisses()
    ensures var row := JObject(map["a" := JNumber(1)]);
            var wrapper := JObject(map["results" := JArray([row])]);
            var body := JObject(map["d" := wrapper]);
            && NormaliseAsWritten(200, body) == wrapper
            && Normalise(200, body) == JArray([row])
  {
  }

  /** A successful reply whose `d` is already a list is returned unchanged. */
  lemma ListIsKept(rows: seq<Json>)
    ensures Normalise(200, JObject(map["d" := JArray(rows)])) == JArray(rows)
  {
  }

  /** A failed reply carrying `error.message.value` returns that text. */
  lemma ApiErrorIsReturned(code: int, message: string)
    requires code != 200
    ensures var body := JObject(map["error" := JObject(map["message" := JObject(map["value" := JString(message)])])]);
            Normalise(code, body) == JString(message)
  {
  }

  /** At most this many children of the XML document are returned. */
  const ChildLimit: nat := 10

  /**
   * The loop of the XML branch over `$url->children()`: `$i++ < 10`
   * keeps the first ten children in document order. `$results` starts
   * unset, so a document without children yields `null`.
   */
  method FirstChildren<T>(children: seq<T>) returns (results: Option<seq<T>>)
    ensures |children| == 0 <==> results.None?
    ensures results.Some? ==> results.value == children[..Min(ChildLimit, |children|)]
  {
    var collected: seq<T> := [];
    var hasResults := false;
    var i := 0;
    for k := 0 to |children|
      invariant i == k
      invariant hasResults <==> k > 0
      invariant collected == children[..Min(ChildLimit, k)]
    {
      if i < ChildLimit {
        collected := collected + [children[k]];
        hasResults := true;
      }
      i := i + 1;
    }
    results := if hasResults then Some(collected) else None;
  }

  /** The children the XML branch returns, as a value (the specification of `FirstChildren`). */
  function KeptChildren<T>(children: seq<T>): Option<seq<T>>
  {
    if |children| == 0 then None else Some(children[..Min(ChildLimit, |children|)])
  }
}
