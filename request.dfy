/**
 * `GOVDataRequest::callAPI`: picks one of three branches from the
 * context, builds the request of that branch, and shapes the reply.
 *
 * The network is a parameter. `fetchJson` stands for cURL plus
 * `json_decode` on the primary host (HTTP code and decoded body),
 * `loadXml` for `simplexml_load_file(...)->children()`, `fetchRaw` for
 * the cURL call of the quarry host, and `hmacSha1` for `hash_hmac`.
 */
module Request {
  import opened Wrappers
  import opened JsonValue
  import opened Context
  import opened Query
  import opened Signing
  import opened Response
  import opened Quarry

  /** A child element of the civic-data host's XML document, by name and text. */
  datatype XmlNode = XmlNode(name: string, text: string)

  /** An HTTP GET as cURL is told to send it: the URL and the header lines. */
  datatype HttpGet = HttpGet(url: string, headers: seq<string>)

  datatype HttpReply = HttpReply(code: int, body: Json)

  datatype Network = Network(
    fetchJson: HttpGet -> HttpReply,
    loadXml: string -> seq<XmlNode>,
    fetchRaw: HttpGet -> string,
    hmacSha1: Hmac)

  /** What `callAPI` returns, by branch. */
  datatype ApiResult =
    | NullResult                    // PHP `NULL`
    | Decoded(value: Json)          // primary host: records, or the error text as a JSON string
    | Nodes(nodes: seq<XmlNode>)    // civic-data host
    | Text(text: string)            // quarry host: improper input
    | Bodies(bodies: seq<string>)   // quarry host: `array($response)`

  datatype Branch = PrimaryApi | CivicXml | QuarryV2 | NoMatch

  /**
   * The branch `callAPI` takes: the primary host first, the civic-data
   * host second, then the "V2" tag, which `isValid` has just set when
   * the host is the quarry host. A tag set to "V2" by hand also reaches
   * the quarry branch.
   */
  function Route(host: string, tag: string): (b: Branch)
    ensures b == PrimaryApi <==> host == LinkDolApi
    ensures b == CivicXml <==> host == LinkUsaGov
    ensures b == QuarryV2 <==> host != LinkDolApi && host != LinkUsaGov && (host == LinkDolQuarry || tag == QuarryTag)
  {
    if Recognised(host) == Some(LinkDolApi) then PrimaryApi
    else if Recognised(host) == Some(LinkUsaGov) then CivicXml
    else if Retagged(host, tag) == QuarryTag then QuarryV2
    else NoMatch
  }

  /** The signed GET of the primary host. */
  function PrimaryGet(host: string, tag: string, apiKey: string, secret: string, methodName: string,
                      args: Arguments, timestamp: string, hmac: Hmac): HttpGet
  {
    var query := QueryString(args);
    HttpGet(PrimaryUrl(host, tag, methodName, query),
            ["Authorization: " + AuthHeader(hmac, secret, tag, methodName, query, timestamp, apiKey),
             "Accept: application/json"])
  }

  /** The URL the XML branch loads: the host and method only. */
  function CivicUrl(host: string, methodName: string): string
  {
    host + "/" + methodName + "?"
  }

  function QuarryGet(url: string, apiKey: string): HttpGet
  {
    HttpGet(url, ["X-API-KEY: " + apiKey])
  }

  /** The result of `callAPI` on a context with the given fields. */
  function Respond(host: string, tag: string, apiKey: string, secret: string, methodName: string,
                   args: Arguments, timestamp: string, net: Network): ApiResult
  {
    match Route(host, tag)
    case PrimaryApi =>
      var reply := net.fetchJson(PrimaryGet(host, tag, apiKey, secret, methodName, args, timestamp, net.hmacSha1));
      Decoded(Normalise(reply.code, reply.body))
    case CivicXml =>
      (match KeptChildren(net.loadXml(CivicUrl(host, methodName)))
       case None => NullResult
       case Some(nodes) => Nodes(nodes))
    case QuarryV2 =>
      (match QuarryTarget(host, methodName, args)
       case None => Text(ImproperInput)
       case Some(url) => Bodies([net.fetchRaw(QuarryGet(url, apiKey))]))
    case NoMatch => NullResult
  }

  class GovDataRequest {
    var context: GovDataContext

    constructor (context: GovDataContext)
      ensures this.context == context
    {
      this.context := context;
    }

    /**
     * Dispatches, builds and sends the request of the chosen branch and
     * shapes its reply. The only state it changes is the context's tag,
     * through `isValid`.
     */
    method CallApi(methodName: string, arguments: Arguments, timestamp: string, net: Network)
      returns (results: ApiResult)
      modifies context`apiURL
      ensures context.apiURL == Retagged(context.apiHost, old(context.apiURL))
      ensures results == Respond(context.apiHost, old(context.apiURL), context.apiKey, context.sharedSecret,
                                 methodName, arguments, timestamp, net)
    {
      var first := context.IsValid();
      if Some(LinkDolApi) == first {
        var url := context.apiHost + "/" + context.apiURL + "/" + methodName + "?";
        var query := BuildQuery(arguments);
        var header := "Authorization: " + AuthHeader(net.hmacSha1, context.sharedSecret, context.apiURL,
                                                     methodName, query, timestamp, context.apiKey);
        var reply := net.fetchJson(HttpGet(url + query, [header, "Accept: application/json"]));
        results := Decoded(Normalise(reply.code, reply.body));
        return;
      }
      var second := context.IsValid();
      if Some(LinkUsaGov) == second {
        var children := net.loadXml(context.apiHost + "/" + methodName + "?");
        var discarded := BuildQuery(arguments);
        var kept := FirstChildren(children);
        results := if kept.Some? then Nodes(kept.value) else NullResult;
      } else if context.GetApiHost() == QuarryTag {
        var getUrl := BuildQuarryUrl(context.apiHost, methodName, arguments);
        if getUrl.None? {
          results := Text(ImproperInput);
        } else {
          var response := net.fetchRaw(QuarryGet(getUrl.value, context.apiKey));
          results := Bodies([response]);
        }
      } else {
        results := NullResult;
      }
    }
  }

  /**
   * The primary host is sent the URL `{host}/{tag}/{method}?{query}`
   * with the query of the arguments, signed over the same URL without
   * its host, and the reply is normalised.
   */
  lemma PrimaryRequestShape(host: string, tag: string, apiKey: string, secret: string, methodName: string,
                            args: Arguments, timestamp: string, net: Network)
    requires host == LinkDolApi
    ensures var get := PrimaryGet(host, tag, apiKey, secret, methodName, args, timestamp, net.hmacSha1);
            var query := QueryString(args);
            var reply := net.fetchJson(get);
            && get.url == host + "/" + tag + "/" + methodName + "?" + query
            && |get.headers| == 2 && get.headers[1] == "Accept: application/json"
            && get.headers[0] == "Authorization: " + Credentials(timestamp, apiKey) + "&Signature="
                 + net.hmacSha1(get.url[|host|..] + "&" + Credentials(timestamp, apiKey), secret)
            && Respond(host, tag, apiKey, secret, methodName, args, timestamp, net)
                 == Decoded(Normalise(reply.code, reply.body))
  {
  }

  /** The arguments do not change what the civic-data branch fetches or returns. */
  lemma CivicIgnoresArguments(tag: string, apiKey: string, secret: string, methodName: string,
                              args1: Arguments, args2: Arguments, timestamp: string, net: Network)
    ensures Respond(LinkUsaGov, tag, apiKey, secret, methodName, args1, timestamp, net)
         == Respond(LinkUsaGov, tag, apiKey, secret, methodName, args2, timestamp, net)
    ensures var children := net.loadXml(CivicUrl(LinkUsaGov, methodName));
            var r := Respond(LinkUsaGov, tag, apiKey, secret, methodName, args1, timestamp, net);
            && (|children| == 0 <==> r == NullResult)
            && (r.Nodes? ==> r.nodes == children[..Min(10, |children|)])
  {
  }

  /**
   * A proper quarry call returns a one-element list; an improper one the
   * fixed error text.
   */
  lemma QuarryResultShape(host: string, tag: string, apiKey: string, secret: string, methodName: string,
                          args: Arguments, timestamp: string, net: Network)
    requires Route(host, tag) == QuarryV2
    ensures var r := Respond(host, tag, apiKey, secret, methodName, args, timestamp, net);
            match QuarryTarget(host, methodName, args)
            case None => r == Text(ImproperInput)
            case Some(url) => r.Bodies? && |r.bodies| == 1 && r.bodies[0] == net.fetchRaw(HttpGet(url, ["X-API-KEY: " + apiKey]))
  {
  }

  /** With a host none of the three and a tag other than "V2", `callAPI` returns `NULL`. */
  lemma UnknownHostIsNull(host: string, tag: string, apiKey: string, secret: string, methodName: string,
                          args: Arguments, timestamp: string, net: Network)
    requires Recognised(host).None? && tag != QuarryTag
    ensures Respond(host, tag, apiKey, secret, methodName, args, timestamp, net) == NullResult
  {
  }
}
