/**
 * The request URL of the primary API host and the HMAC-signed
 * `Authorization` header that goes with it (`authHeader` and
 * `authSignature`). The HMAC itself is PHP's `hash_hmac('sha1', data,
 * key)`, HMAC of section 2 of RFC 2104 over SHA-1, written out as hex;
 * the model takes it as a function parameter. The timestamp, which PHP
 * reads from the clock once per header, is a parameter as well.
 */
module Signing {
  import opened Text

  /** What `hash_hmac` returns: the digest written in lower-case hexadecimal. */
  type HexString = s: string | forall i :: 0 <= i < |s| ==> s[i] in "0123456789abcdef"

  /** `hash_hmac('sha1', data, key)`, given as a function of (data, key). */
  type Hmac = (string, string) -> HexString

  /** `"{host}/{apiURL}/{method}?"` followed by the query string: the URL fetched on the primary host. */
  function PrimaryUrl(host: string, tag: string, methodName: string, query: string): string
  {
    host + "/" + tag + "/" + methodName + "?" + query
  }

  /** The credentials both the signed data and the header end with. */
  function Credentials(timestamp: string, apiKey: string): string
  {
    "Timestamp=" + timestamp + "&ApiKey=" + apiKey
  }

  /**
   * `$dataToSign` of `authSignature`: the path and query of the request
   * URL, that is the URL with the host taken off, followed by `&` and
   * the credentials.
   */
  function SignedData(tag: string, methodName: string, query: string, timestamp: string, apiKey: string): (data: string)
    ensures forall host: string {:trigger PrimaryUrl(host, tag, methodName, query)} ::
      data == PrimaryUrl(host, tag, methodName, query)[|host|..] + "&" + Credentials(timestamp, apiKey)
  {
    var data := "/" + tag + "/" + methodName + "?" + query;
    data + "&Timestamp=" + timestamp + "&ApiKey=" + apiKey
  }

  /** `authSignature`: the HMAC of the signed data under the shared secret. */
  function AuthSignature(hmac: Hmac, secret: string, tag: string, methodName: string, query: string,
                         timestamp: string, apiKey: string): HexString
  {
    hmac(SignedData(tag, methodName, query, timestamp, apiKey), secret)
  }

  /**
   * `authHeader`: the credentials followed by the signature over the
   * same timestamp and key. The header begins with exactly the
   * credentials the signed data ends with, and the signed data begins
   * with the path and query of the request.
   */
  function AuthHeader(hmac: Hmac, secret: string, tag: string, methodName: string, query: string,
                      timestamp: string, apiKey: string): (header: string)
    ensures var creds := Credentials(timestamp, apiKey);
            var data := SignedData(tag, methodName, query, timestamp, apiKey);
            && header == creds + "&Signature=" + hmac(data, secret)
            && data == "/" + tag + "/" + methodName + "?" + query + "&" + creds
  {
    "Timestamp=" + timestamp + "&ApiKey=" + apiKey
      + "&Signature=" + AuthSignature(hmac, secret, tag, methodName, query, timestamp, apiKey)
  }

  /**
   * The header splits at `&` into its three fields when the timestamp
   * and key hold no `&` (the hexadecimal signature never does): the
   * timestamp and key it names are the ones that were signed.
   */
  lemma HeaderFields(hmac: Hmac, secret: string, tag: string, methodName: string, query: string,
                     timestamp: string, apiKey: string)
    requires '&' !in timestamp && '&' !in apiKey
    ensures Split('&', AuthHeader(hmac, secret, tag, methodName, query, timestamp, apiKey))
         == ["Timestamp=" + timestamp, "ApiKey=" + apiKey,
             "Signature=" + AuthSignature(hmac, secret, tag, methodName, query, timestamp, apiKey)]
  {
    var signature := AuthSignature(hmac, secret, tag, methodName, query, timestamp, apiKey);
    assert '&' !in signature by {
      assert forall i :: 0 <= i < |signature| ==> signature[i] != '&';
    }
    var parts := ["Timestamp=" + timestamp, "ApiKey=" + apiKey, "Signature=" + signature];
    JoinCons('&', parts[1], [parts[2]]);
    JoinCons('&', parts[0], [parts[1], parts[2]]);
    assert parts == [parts[0]] + [parts[1], parts[2]];
    assert [parts[1], parts[2]] == [parts[1]] + [parts[2]];
    assert AuthHeader(hmac, secret, tag, methodName, query, timestamp, apiKey) == Join('&', parts);
    SplitJoin('&', parts);
  }
}
