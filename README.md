# GOVData SDK core, modelled in Dafny

This project models the deterministic core of `GOVDataSDK.php`, the PHP client for the U.S. Department of Labor open-data APIs. The file has two classes.

- `GOVDataContext` holds a host, an API key, a shared secret and a version tag. The tag is the public field `apiURL`. It starts as `"V1"`. It becomes `"V2"` whenever the host is checked and found to be the quarry host `https://quarry.dol.gov`: once by the constructor (through `updateContext`), and again on every `isValid`. `getApiHost` returns the tag, not the host. The model is the class `Context.GovDataContext`, whose methods change only `apiURL`.
- `GOVDataRequest::callAPI` dispatches on the context and has three branches, tried in this order:
  - **`http://api.dol.gov`** builds `{host}/{tag}/{method}?{query}`. The query holds one `key=urlencode(value)` segment per argument, joined by `&`. A `$` goes before the reserved keys `top`, `skip`, `select`, `orderby` and `filter`. The request is signed with an HMAC-SHA1 `Authorization` header. The reply is then normalised. On HTTP 200 it becomes `d`. The evident intent is to unwrap `d` to `d.results`, but as written the unwrap never happens (see "## Findings"). On any other code it becomes `error.message.value`, or the fixed text `"Connection to host failed."`.
  - **`http://business.usa.gov`** loads `{host}/{method}?` as XML and returns the first ten children. This branch also builds a query string but never uses it, so the arguments have no effect.
  - **The `"V2"` tag** leads to the quarry branch. It builds `{host}/{method}/{table_alias}/{k}/{v}/...` with nothing encoded and returns the raw body in a one-element list. It returns `'ERROR: Improper input parameters.'` when `table_alias` or the method is PHP-`empty`. Because `apiURL` is public, the tag alone is enough to reach this branch, even on another host.
  - Any other context gets `NULL`.

Strings are Dafny `string`s. A PHP string is a byte string, and the model takes it to hold the UTF-8 encoding of the Dafny text. `urlencode` is therefore modelled exactly over those bytes (`FormEncoding.UrlEncode`):
- ASCII letters, digits, `-`, `_` and `.` stay as they are;
- a space becomes `+`;
- every other byte becomes `%XY` with upper-case hexadecimal digits.

This is PHP's own variant of the `application/x-www-form-urlencoded` encoding. It is paired with a strict form decoder for the same variant, and the round trip is proved.

The network is a parameter of `callAPI`: the value `Request.Network` holds four functions.
- `fetchJson` stands for cURL followed by `json_decode`, giving the HTTP code and the decoded body.
- `loadXml` stands for `simplexml_load_file(url)->children()`.
- `fetchRaw` stands for the cURL call of the quarry branch.
- `hmacSha1` stands for `hash_hmac('sha1', data, key)`, HMAC as in section 2 of RFC 2104 over SHA-1.

The timestamp that `timestamp()` reads from the clock is a string parameter. `authHeader` reads it once and uses it in both the header and the signed data, and the model does the same. `Request.Respond` is the value-level specification of `callAPI`. `Request.GovDataRequest.CallApi` runs the branches imperatively and is proved equal to `Respond`. Like the source, it calls `isValid` once on the primary host. On any other host it calls `isValid` a second time and then reads `getApiHost`. On a 200 reply it applies the corrected unwrap (`Response.Normalise`), not the code as written.

Three behaviours of the code worth noting:
- A space in a query value is encoded as `+`, not `%20` (`Query.QueryExample`).
- The quarry check rejects a `table_alias` of `""` or `"0"`, not only a missing one (`Quarry.QuarryTarget`).
- A civic-data reply with no children yields `NULL`, not an empty list. `$results` is never assigned in that case (`Response.FirstChildren`).

## Model

| member | source | states |
|---|---|---|
| `Context.Recognised` | GOVDataSDK.php:30-45 | the host is returned exactly when it is one of the three fixed hosts; otherwise the result is `null` |
| `Context.Retagged` | GOVDataSDK.php:47-52 | the tag becomes "V2" exactly when the host is the quarry host and the tag was not already "V2"; otherwise it is kept |
| `Context.RetaggedIdempotent` | GOVDataSDK.php:40-52 | checking the host a second time leaves the tag where the first check put it |
| `Context.GovDataContext.constructor` | GOVDataSDK.php:10-28 | host, key and secret are stored; the tag is "V2" for the quarry host and "V1" for every other host |
| `Context.GovDataContext.UpdateContext` | GOVDataSDK.php:47-52 | only `apiURL` may change; it becomes "V2" on the quarry host and is otherwise kept |
| `Context.GovDataContext.IsValid` | GOVDataSDK.php:30-45 | returns the recognised host or `null`; only `apiURL` may change, and only the quarry host sets it to "V2", so a second call returns the same value and leaves the same state |
| `Context.GovDataContext.GetApiHost` | GOVDataSDK.php:54-57 | returns the version tag `apiURL`, not the host |
| `FormEncoding.EncodedCharsAreFormChars` | GOVDataSDK.php:95 | every character of `urlencode`'s output is an unreserved ASCII character, `+` or `%` |
| `FormEncoding.UrlEncodeHasNoSeparators` | GOVDataSDK.php:95 | an encoded value is made only of unreserved ASCII characters, `+` and `%`, so it never holds `&`, `=`, `/`, `?`, `#` or a space |
| `FormEncoding.UrlEncodeRoundTrip` | GOVDataSDK.php:95 | form decoding of `urlencode(s)` gives back exactly the UTF-8 bytes of `s` |
| `FormEncoding.SpaceBecomesPlus` | GOVDataSDK.php:95 | `urlencode("a b")` is `a+b` |
| `Text.SplitJoin` | GOVDataSDK.php:101 | `explode` undoes `implode` when no part holds the glue character |
| `Query.BuildQuery` | GOVDataSDK.php:92-101 | the loop and `implode` produce the query string of the arguments: one segment per argument, in order, joined by `&` |
| `Query.SegmentReadsBack` | GOVDataSDK.php:94-98 | a segment contains no `&`; split at its first `=` it gives the key (with `$` exactly when reserved, never encoded) and the value's bytes |
| `Query.QueryRoundTrip` | GOVDataSDK.php:93-101 | for keys without `&` or `=`, splitting the query at `&` and decoding gives back every argument in order: the key with `$` exactly on reserved keys, and the UTF-8 bytes of the value |
| `Query.TopSegment` | GOVDataSDK.php:94-98 | the reserved key `top` with value `5` gives the segment `$top=5` |
| `Query.FilterSegment` | GOVDataSDK.php:94-98 | the reserved key `filter` with value `a b` gives `$filter=a+b` |
| `Query.QueryExample` | GOVDataSDK.php:69-101 | arguments `top=5, filter="a b"` give `$top=5&$filter=a+b` |
| `Signing.SignedData` | GOVDataSDK.php:197-201 | for every host, the signed data is the request URL with the host taken off, then `&Timestamp={ts}&ApiKey={key}` |
| `Signing.AuthHeader` | GOVDataSDK.php:191-201 | the header is the credentials that end the signed data, with the same timestamp and key, followed by `&Signature=` and the HMAC of the signed data under the shared secret; the signed data starts with `/{tag}/{method}?{query}` |
| `Signing.HeaderFields` | GOVDataSDK.php:191-201 | when the timestamp and key hold no `&`, the header splits into `Timestamp=`, `ApiKey=` and `Signature=` fields carrying the signed values |
| `Response.Normalise` | GOVDataSDK.php:113-128 | on code 200 the result is `d`, unwrapped to `d.results` when `d` is an object with `results` set; otherwise it is `error.message.value` when set, else exactly "Connection to host failed." |
| `Response.NormaliseAsWritten` | GOVDataSDK.php:115-128 | as the code is written, code 200 always yields `d` itself; other codes are handled as in `Normalise` |
| `Response.AsWrittenDiffersExactlyOnUnwrap` | GOVDataSDK.php:115-121 | the written and the intended normalisation differ exactly on a 200 reply whose `d` is an object with a set `results` different from `d` |
| `Response.StdClassTestMisses` | GOVDataSDK.php:118-121 | on `{"d":{"results":[{"a":1}]}}` the written code returns the wrapper object, and the intended code returns `[{"a":1}]` |
| `Response.ListIsKept` | GOVDataSDK.php:115-121 | a 200 reply whose `d` is a list returns that list unchanged |
| `Response.ApiErrorIsReturned` | GOVDataSDK.php:122-124 | a non-200 reply carrying `error.message.value` returns that text |
| `Response.FirstChildren` | GOVDataSDK.php:143-151 | the first `min(10, n)` children in document order; `null` exactly when there are none |
| `Quarry.Lookup` | GOVDataSDK.php:155 | `$arguments[key]` is missing exactly when no argument has that key, and is otherwise that argument's value |
| `Quarry.WithoutKeeps` | GOVDataSDK.php:157 | after `unset`, an argument remains exactly when it was there and its key is a different one |
| `Quarry.WithoutAppend` | GOVDataSDK.php:157 | `unset` acts on each part of the list separately, so the remaining arguments keep their order and multiplicity |
| `Quarry.WithoutAbsentKey` | GOVDataSDK.php:157 | `unset` of a key that no argument has leaves the arguments unchanged |
| `Quarry.PairSegmentsAt` | GOVDataSDK.php:159-161 | the `i`-th argument becomes segments `2i` (its key) and `2i+1` (its value), so the segments are the arguments in order |
| `Quarry.QuarryTarget` | GOVDataSDK.php:154-165 | no URL exactly when `table_alias` is missing or PHP-empty, or the method is PHP-empty |
| `Quarry.BuildQuarryUrl` | GOVDataSDK.php:154-164 | the check, the `unset` and the loop build `{host}/{method}/{alias}` followed by `/{k}/{v}` for every other argument |
| `Quarry.QuarryPathReadsBack` | GOVDataSDK.php:156-161 | when no part holds `/`, the path after the host splits into the method, the alias and the other arguments as key/value pairs in order; `table_alias` is not repeated and nothing is encoded |
| `Quarry.QuarryExample` | GOVDataSDK.php:155-161 | `{table_alias: "t1", year: "2020"}` with method `data` gives `{host}/data/t1/year/2020` |
| `Quarry.MissingAliasIsImproper` | GOVDataSDK.php:155-163 | without `table_alias` there is no URL, so the result is the fixed error text |
| `JsonValue.Property` | GOVDataSDK.php:116 | on an object that has the property, the read gives that property's value; on anything else it gives `null` |
| `JsonValue.PathValue` | GOVDataSDK.php:123-124 | a value reached by a set property path is never `null` |
| `Request.Route` | GOVDataSDK.php:90-183 | the primary branch exactly on `http://api.dol.gov`; the civic-data branch exactly on `http://business.usa.gov`; the quarry branch exactly on any other host whose tag is "V2" or that is the quarry host; otherwise none |
| `Request.GovDataRequest.constructor` | GOVDataSDK.php:79-82 | the request keeps the context it was given |
| `Request.GovDataRequest.CallApi` | GOVDataSDK.php:88-184 | the result is `Respond` of the context as it was before the call; the only state change is `isValid`'s retagging of the context |
| `Request.PrimaryRequestShape` | GOVDataSDK.php:90-130 | the primary host is sent `{host}/{tag}/{method}?{query}` with `Authorization` and `Accept: application/json` headers; the signature covers that URL without its host; the reply is normalised |
| `Request.CivicIgnoresArguments` | GOVDataSDK.php:131-151 | the civic-data result does not depend on the arguments; it is `NULL` when there are no children and otherwise the first ten |
| `Request.QuarryResultShape` | GOVDataSDK.php:152-180 | a proper quarry call returns a one-element list holding the body fetched with an `X-API-KEY` header; an improper one returns the fixed error text |
| `Request.UnknownHostIsNull` | GOVDataSDK.php:181-183 | an unrecognised host whose tag is not "V2" gets `NULL` |

## Findings

| source | as written | input that shows it | evidently intended | confidence | as-written member | corrected member |
|---|---|---|---|---|---|---|
| GOVDataSDK.php:118 | `instanceof stdClass` inside `namespace USDOL` names `USDOL\stdClass`. That class does not exist, so the test is false and `d.results` is never unwrapped | code 200, body `{"d":{"results":[{"a":1}]}}`: the result is `{"results":[{"a":1}]}` | unwrap to `[{"a":1}]` (`\stdClass`) | not executed; PHP's documented name resolution | `Response.NormaliseAsWritten`, `Response.StdClassTestMisses` | `Response.Normalise`, `Response.AsWrittenDiffersExactlyOnUnwrap` |

The rest of the model (`Request.Respond`, `Request.GovDataRequest.CallApi`) uses `Response.Normalise`.

## Left out

- cURL transport (`curl_init`, `curl_setopt`, `curl_exec`, `curl_getinfo`, `curl_close`) is network I/O. It is replaced by the `Network` functions, and HTTP code and body are their outputs.
- The TLS and redirect options of the quarry branch (no host or peer verification, no redirects) are transport configuration. They have no effect on any value the model computes.
- `json_decode` and `simplexml_load_file` are foreign parsers. Their outputs are `JsonValue.Json` and a list of `Request.XmlNode` (name and text only).
- `simplexml_load_file` failing (returning `false`, after which `children()` is a fatal error) is not modelled.
- A failed `curl_exec` in the quarry branch (which puts `false` in the one-element list) is not modelled; the body is a string.
- `hash_hmac('sha1', ...)` is a foreign cryptographic call and is the `hmacSha1` parameter. The model keeps only that its result is a lower-case hexadecimal string. `Signing.AuthSignature` is therefore stated only through `Signing.AuthHeader`.
- `date()` and `date_default_timezone_set` read the clock. The timestamp is a parameter, and its `Y-m-d\TH:i:s\Z` format is not checked.
- The unused fields `apiUser` and `apiPass` are not modelled. The host constants repeated in `GOVDataRequest` are identical to those of `GOVDataContext` and are declared once.
- Hosts, keys, argument keys and argument values are strings. PHP's loose comparison of non-string values (for example a host of `true`) is not modelled.
- A PHP string that is not valid UTF-8 has no counterpart in the model.
- JSON numbers are integers; floating point is not modelled.
- The argument array is a list of key/value pairs. PHP arrays cannot repeat a key; for a list that does, the model looks up the first occurrence and `unset` removes all of them.
- Query.QueryRoundTrip: holds only for keys without `&` or `=`. Keys are sent unencoded, so other keys cannot be read back.
- Quarry.QuarryPathReadsBack: holds only when no path part contains `/`, for the same reason.
