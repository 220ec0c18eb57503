# restclient in Dafny

A model of the Go package `restclient` (maprost/restclient), a fluent HTTP
client, together with proofs about it:

- `rcquery.Query` builds a query string value by value. A scalar adds one
  `key=value` fragment. A string is escaped first. An array or slice adds
  one fragment per element. The first fragment follows `?` and every later
  one follows `&`. Pointers, `nil`, maps and every other kind add nothing.
- `RestClient` collects a method, a path, a body, headers, a query and a
  sticky error. `send` then turns it into a status code and an error, with
  `-1` (`RestClientError`) for every failure of the call itself.
- `Result` and `ResponseItem` hold what came back. `Result.Error` folds a
  transport error and an error status (400 or more) into one error whose
  text is `[code]body`.
- `rctest` makes `Result` fixtures for fixed status codes.

Modules, one per file:

- `GoText` (`go_text.dfy`): Go byte strings, errors, and the decimal text
  of `strconv.Itoa` and `fmt.Sprint` with its parser.
- `UrlEscape` (`url_escape.dfy`): `url.QueryEscape` and `url.QueryUnescape`.
- `RcQuery` (`rcquery.dfy`): `rcquery/query.go`. `Query` is a class whose
  string field `Add` appends to. A ghost sequence of fragments specifies
  it, and the invariant `Valid` ties the string to the fragments.
- `RcResult` (`result.dfy`): `result.go`.
- `Codecs` (`codecs.dfy`): the JSON and XML codecs. They are parameters of
  the operations that use them, and a decode target is a class with one
  field.
- `RcResponse` (`responseitem.dfy`): `responseitem.go`, a class whose
  decode methods update the `Result` in place.
- `RestClient` (`restclient.dfy`): `restclient.go`, a class with the
  builder's fields. The transport (`http.NewRequest`, `client.Do`,
  `ioutil.ReadAll`) is a function parameter from the request to an
  `Exchange`.
- `RcTest` (`rctest.dfy`): `rctest/serverstatus.go`.

Where the code and what its tests expect differ, the model does this:

- `send` assigns `response.Status` (a string in Go's `net/http`) to the
  integer status code. The model takes the intended integer status code
  (`response.StatusCode`), which is what the tests check.
- `Add` has no case for pointers, so a pointer adds nothing, while the
  tests expect it to be followed to its target. The model keeps the code as
  written (`RcQuery.Pairs`, `RcQuery.Query.Add`) and states the tests'
  reading separately (`RcQuery.PairsDereferenced`). This is listed under
  Findings.
- The factories leave the header map nil, and a successful body encoding
  writes into it, which panics. The `RestClient` class starts from an empty
  map, as intended; `RestClient.AddBodyAsWritten` and
  `RestClient.FreshBuilderBodyPanics` model the nil map as written. This is
  listed under Findings.

## Model

| member | source | states |
|---|---|---|
| GoText.Decimal | rcquery/query.go:27-31 | the text of an unsigned value is a non-empty run of digits with no leading zero |
| GoText.DecimalRoundTrip | rcquery/query.go:27-31 | parsing the decimal text of n gives back n |
| GoText.Itoa | result.go:19 | `strconv.Itoa`: the decimal digits of a non-negative integer, and `-` before the digits of its magnitude for a negative one |
| GoText.ItoaRoundTrip | result.go:18-20 | parsing `strconv.Itoa(i)` gives back i, negative values included |
| GoText.ItoaInjective | result.go:18-20 | two different integers never have the same `Itoa` text |
| GoText.ParseDecimal | result.go:18-20 | the parser accepts exactly the non-empty runs of digits |
| UrlEscape.EscapeByte | rcquery/query.go:33-34 | an unreserved byte is kept, a space becomes `+`, any other byte becomes `%` and two hex digits, neither of them a lower-case letter, whose value is the byte |
| UrlEscape.QueryEscape | rcquery/query.go:33-34 | the escape is never shorter than its input, holds only unreserved bytes, `+`, `%` and hex digits, and leaves all-unreserved text unchanged |
| UrlEscape.UnescapeEscapeByte | rcquery/query.go:33-34 | unescaping the escape of one byte followed by any text gives back the byte, then the unescape of the text |
| UrlEscape.EscapeAppend | rcquery/query.go:33-34 | the escape of a concatenation is the concatenation of the escapes, so a string is escaped byte by byte |
| UrlEscape.EscapeSingle | rcquery/query.go:33-34 | a one-byte string escapes exactly as `EscapeByte` escapes that byte, so a space becomes `+` and hex digits are upper-case |
| UrlEscape.QueryUnescape | rcquery/query_test.go:37 | `url.QueryUnescape`: the unescaped string is never longer than the escaped one (its inverse property is UrlEscape.EscapeRoundTrip) |
| UrlEscape.EscapeRoundTrip | rcquery/query.go:33-34 | `QueryUnescape(QueryEscape(s)) == Some(s)` for every byte string |
| UrlEscape.UnescapePlainByte | rcquery/query_test.go:37-39 | a byte other than `%` and `+` passes through unescaping unchanged |
| UrlEscape.UnescapePlainPrefix | rcquery/query_test.go:37-39 | a prefix with no `%` and no `+` passes through unescaping, and the result fails exactly when the rest fails |
| UrlEscape.EscapedHasNoDelimiters | rcquery/query.go:33-34 | an escaped value holds no `&`, `=`, `?`, `#` or space, so it cannot break the query string |
| UrlEscape.EscapeExample | rcquery/query_test.go:34-35 | `$ü!` escapes to `%24%C3%BC%21` |
| RcQuery.Sprint | rcquery/query.go:27-34 | a bool prints as `true`/`false`, a signed integer as `Itoa` of it and an unsigned one as `Decimal` of it (canonical decimal: no leading zero, `-` only before a non-zero magnitude), and a float's and a string's text are kept |
| RcQuery.SprintParses | rcquery/query.go:27-31 | the text of a signed or unsigned integer parses back to that integer |
| RcQuery.Encode | rcquery/query.go:18-23 | the query string is empty exactly when no fragment was added |
| RcQuery.Separator | rcquery/query.go:18-23 | one byte: `?` exactly when the query string is still empty, `&` exactly when it is not |
| RcQuery.Pairs | rcquery/query.go:26-43 | the kind dispatch of `Add`: a bool, integer or float adds one fragment with its printed text, a string one fragment with its escaped text, and a pointer, `nil` or any other kind nothing |
| RcQuery.PairsAll | rcquery/query.go:36-40 | the elements of an array or slice add their fragments in order: an empty one adds nothing, a one-element one adds what that element adds |
| RcQuery.PairsAllScalars | rcquery/query.go:36-40 | a slice of scalars adds exactly one fragment per element |
| RcQuery.Query.constructor | rcquery/query.go:13-15 | a new query has the empty string and no fragments |
| RcQuery.Query.Add | rcquery/query.go:17-45 | `Add` appends exactly the fragments `Pairs` gives for the value, as written (a pointer adds nothing), in order, and the string stays the `?`/`&` encoding of all fragments added so far |
| RcQuery.Query.AddElements | rcquery/query.go:36-40 | adding the elements of an array or slice one by one appends exactly their fragments, in order, and keeps the string the encoding of all fragments |
| RcQuery.Query.AppendFragment | rcquery/query.go:31 | `separator + key + "=" + text` appended to the string adds one fragment and keeps the invariant |
| RcQuery.Query.Get | rcquery/query.go:47-49 | `Get` returns the encoding of every fragment added so far |
| RcQuery.EncodeSnoc | rcquery/query.go:18-23 | one more fragment appends `?` (to the empty string) or `&`, then `key=text` |
| RcQuery.EncodeAppend | rcquery/query.go:18-23 | after at least one fragment, the next is joined with `&` |
| RcQuery.JoinedSnoc | rcquery/query.go:18-23 | fragments joined by `&` grow at the end by `&` and the new fragment |
| RcQuery.EncodeExtends | rcquery/query.go:17-45 | adding only appends: the old query string is a prefix of the new one, and the first appended byte is `?` exactly when the old string was empty |
| RcQuery.EncodeStartsWithQuestionMark | rcquery/query.go:18-23 | a non-empty query string starts with `?` |
| RcQuery.PairsAllAppend | rcquery/query.go:36-40 | the fragments of a concatenation of elements are those of each part, in order |
| RcQuery.PairsAllStep | rcquery/query.go:36-40 | one more element of a slice adds its fragments after those of the elements before it |
| RcQuery.PairsOfList | rcquery/query.go:36-40 | adding a slice adds its first element, then the rest, under the same key |
| RcQuery.PairsUseKey | rcquery/query.go:26-43 | every fragment `Add` emits carries the key it was added with |
| RcQuery.PairsAllUseKey | rcquery/query.go:36-40 | every fragment of the elements of a slice carries its key |
| RcQuery.PairsNonEmptyIffEmits | rcquery/query.go:26-43 | `Add` changes the query exactly when the value is a scalar, or a slice or array with a scalar somewhere inside; a pointer never changes it |
| RcQuery.PairsAllNonEmptyIff | rcquery/query.go:36-40 | a slice adds fragments exactly when one of its elements does |
| RcQuery.IgnoredKinds | rcquery/query.go:41-43 | `nil`, every pointer (nil or not), maps and the other kinds add nothing, and neither does an empty slice |
| RcQuery.UnescapeStringParameter | rcquery/query.go:33-34 | a query with one string parameter (key without `%` or `+`) unescapes, as a whole, to `?key=` followed by the original string |
| RcQuery.SplitAmpFree | rcquery/query.go:18-23 | splitting at `&` leaves text without `&` in one piece and cuts right after it |
| RcQuery.CutPairFragment | rcquery/query.go:31 | a `key=text` fragment whose key has no `=` is cut back into its key and text |
| RcQuery.FragmentHasNoAmp | rcquery/query.go:31 | a fragment of a key and a text without `&` holds no `&` |
| RcQuery.CutPairsOne | rcquery/query.go:31 | a single segment that cuts into a fragment decodes to that fragment alone |
| RcQuery.DecodeJoined | rcquery/query.go:17-45 | splitting the joined fragments at `&` and each at its first `=` gives back the fragments |
| RcQuery.EncodeRoundTrip | rcquery/query.go:17-45 | a query string of fragments with `&`- and `=`-free keys and `&`-free texts decodes back to exactly those fragments |
| RcQuery.EmptyQueryExample | rcquery/query_test.go:10-15 | a fresh query renders as the empty string |
| RcQuery.StringPair | rcquery/query_test.go:21 | `Add("Blob", "Crop")` adds `Blob=Crop` |
| RcQuery.UintPair | rcquery/query_test.go:22 | `Add("Limit", uint(23))` adds `Limit=23` |
| RcQuery.BoolAndFloatPairs | rcquery/query_test.go:23-24 | `true` adds `Flag=true`, and a float adds its printed text |
| RcQuery.ListQueryPairs | rcquery/query_test.go:25 | `[]int{1, 2, 3}` adds `pList=1`, `pList=2`, `pList=3` in order |
| RcQuery.AllQueryTypesExample | rcquery/query_test.go:17-27 | the parameters of `TestAllQueryTypes` add exactly the seven expected fragments, and the map adds none |
| RcQuery.AllQueryTypesFragments | rcquery/query_test.go:28 | the scalar fragments of `TestAllQueryTypes` as text |
| RcQuery.ListFragments | rcquery/query_test.go:28 | the slice fragments of `TestAllQueryTypes` as text |
| RcQuery.EncodeSeven | rcquery/query.go:18-23 | seven fragments render as `?` and the fragments joined by `&` |
| RcQuery.AllQueryTypesQueryString | rcquery/query_test.go:28 | those fragments render as `?Blob=Crop&Limit=23&Flag=true&kilo=-12.123456789&pList=1&pList=2&pList=3` |
| RcQuery.ListQueryExample | rcquery/query_test.go:25 | the slice alone renders as `?pList=1&pList=2&pList=3` |
| RcQuery.EncodeOne | rcquery/query.go:18-23 | one fragment renders as `?key=text` |
| RcQuery.EncodeTwo | rcquery/query.go:18-23 | two fragments render as `?` and the fragments joined by `&` |
| RcQuery.EncodeThree | rcquery/query.go:18-23 | three fragments render as `?` and the fragments joined by `&` |
| RcQuery.JoinedCons | rcquery/query.go:18-23 | a fragment in front of others is joined with `&` |
| RcQuery.SingleStringQuery | rcquery/query.go:33-34 | a single string parameter renders as `?key=` and its escape |
| RcQuery.EscapeQueryExample | rcquery/query_test.go:34-35 | `Add("Blob", "$ü!")` renders as `?Blob=%24%C3%BC%21` |
| RcQuery.UnescapeQueryExample | rcquery/query_test.go:37-39 | that query string unescapes to `?Blob=$ü!` |
| RcQuery.PairsDereferenced | rcquery/query_test.go:42-55 | the reading the tests expect of `Add` (also restclient_test.go:220-221): scalars, `nil` and other kinds as `Pairs`, a nil pointer and an empty slice nothing; a non-nil pointer adds what its target adds (RcQuery.PointerDereferenced) |
| RcQuery.AsWrittenAgreesWithoutPointers | rcquery/query.go:41-43 | on values without pointers the code as written (`Pairs`) and the reading the tests expect (`PairsDereferenced`) add the same fragments |
| RcQuery.AsWrittenAllAgreesWithoutPointers | rcquery/query.go:36-43 | the same for the elements of a slice |
| RcQuery.PointerDereferenced | rcquery/query_test.go:42-55 | a non-nil pointer adds what its target adds and a nil pointer adds nothing; as written, both add nothing |
| RcQuery.NilTypesAsWritten | rcquery/query.go:41-43 | as written, the four parameters of `TestNilTypes` add nothing at all |
| RcQuery.NilTypesDereferenced | rcquery/query_test.go:42-55 | with pointers followed, they add `Query=nil` and `FlagI=0` only |
| RcQuery.NilTypesTargets | rcquery/query_test.go:50-52 | the pointers to `"nil"` and to 0 add `Query=nil` and `FlagI=0` |
| RcQuery.NilTypesQueryString | rcquery/query_test.go:55 | those fragments render as `?Query=nil&FlagI=0` |
| RcResult.Result.Error | result.go:14-22 | the transport error wins; otherwise there is an error exactly when the status is 400 or more, and its text is `[code]` followed by the response body |
| RcResult.StatusText | result.go:19 | the message of a failed response is `[`, the status code's text, `]`, then the body, each at its fixed position |
| RcResult.IndexOfClose | result.go:18-20 | the index found holds the first `]`, and no index means no `]` |
| RcResult.IndexOfCloseAfter | result.go:18-20 | after a run of bytes without `]`, the first `]` is the one right after the run |
| RcResult.ItoaHasNoClose | result.go:18-20 | the status code's text holds no `]` |
| RcResult.BracketedSlices | result.go:18-20 | in `[digits]body` the digits sit between positions 1 and the `]`, and the body follows it |
| RcResult.ParseBracketed | result.go:18-20 | `[`, a text without `]` that parses as an integer, `]` and a body read back as that integer and that body |
| RcResult.StatusMessageRoundTrip | result.go:18-20 | the `[code]body` message reads back to exactly that code and body |
| RcResult.ErrorMessageRoundTrip | result.go:14-22 | the error of a failed response reads back to its status code and response body |
| RcResult.BadRequestExample | restclient_test.go:60-69 | a 400 with body `Blob is broken\n` reports `[400]Blob is broken\n` |
| RcResponse.ResponseItem.String | responseitem.go:15-22 | the body, or the empty string once there is an error |
| RcResponse.ResponseItem.Header | responseitem.go:50-57 | the values under a key, found exactly when there is no error and the key is present; nothing otherwise |
| RcResponse.ResponseItem.Error | responseitem.go:59-61 | the error of the item's `Result` |
| RcResponse.ResponseItem.Json | responseitem.go:37-48 | nothing after an error or for a status other than 200; otherwise the target holds what the decoder wrote and the error is the decoder's; header, body and status code are unchanged |
| RcResponse.ResponseItem.XML | responseitem.go:24-35 | as `Json`, with the XML decoder |
| RcResponse.ResponseItem.DecodeInto | responseitem.go:24-48 | the decode step shared by `Json` and `XML` |
| RcResponse.FailedDecodeIsSticky | responseitem.go:15-48 | after a failed decode the item reports the decoder's error, `String` is empty, no header is found, and a later decode changes nothing |
| RestClient.Classify | restclient.go:138-181 | every failure of the call is status -1 with its error; a response keeps its status and body, and is an error (the body as text) exactly when the status is 400 or more |
| RestClient.AfterDecode | restclient.go:96-111 | only status 200 is decoded; a decode error turns it into -1 with that error, a successful decode gives 200 with no error; other statuses pass through |
| RestClient.RestClient.constructor | restclient.go:31-45 | a builder has the default logger, the given method and path, no body, an empty header map and query, and no error |
| RestClient.Get | restclient.go:31-33 | a GET builder for the path |
| RestClient.Post | restclient.go:35-37 | a POST builder for the path |
| RestClient.Put | restclient.go:39-41 | a PUT builder for the path |
| RestClient.Delete | restclient.go:43-45 | a DELETE builder for the path |
| RestClient.RestClient.AddLogger | restclient.go:47-50 | replaces the logger and nothing else, whatever the error state |
| RestClient.RestClient.AddQueryParam | restclient.go:52-55 | appends the fragments of the value to the query, whatever the error state |
| RestClient.RestClient.AddJsonBody | restclient.go:57-72 | after an error nothing changes; otherwise the encoded body is set together with the JSON `Content-Type`, or the encoder's error is recorded and body and headers stay |
| RestClient.RestClient.AddXMLBody | restclient.go:74-89 | as `AddJsonBody`, with the XML encoder and content type |
| RestClient.RestClient.SetEncodedBody | restclient.go:57-89 | the step shared by `AddJsonBody` and `AddXMLBody` |
| RestClient.RestClient.RequestOf | restclient.go:137-142 | the request carries the method's name (`GET`, `POST`, `PUT`, `DELETE`); the URL is the path followed directly by the query string, and is the path alone when no parameter was added |
| RestClient.RestClient.SendOutcome | restclient.go:130-184 | the named results of `send`: with a sticky error, no body, -1 and that error; otherwise the classification of the exchange for the path followed by the encoding of the query's fragments |
| RestClient.RestClient.SendRaw | restclient.go:130-184 | with a sticky error, status -1 and that error before any request; otherwise the classification of the exchange for the request built from the builder |
| RestClient.RestClient.Send | restclient.go:91-94 | the status code and error of `send` |
| RestClient.RestClient.SendAndGetJsonResponse | restclient.go:96-111 | `send`, then for status 200 only the JSON decoder into the target, with a decode error reported as -1 |
| RestClient.RestClient.SendAndGetXMLResponse | restclient.go:113-128 | as `SendAndGetJsonResponse`, with the XML decoder |
| RestClient.RestClient.SendAndDecode | restclient.go:96-128 | the step shared by the two `SendAndGet...Response` calls |
| RestClient.ClassifyAgreesWithResult | restclient.go:176-181 | a response is an error for `send` exactly when the `Result` built from it reports one, whose text is `[status]` followed by `send`'s error text |
| RestClient.FirstEncodeErrorWins | restclient.go:57-72 | once a body encoding failed, a later successful one changes nothing |
| RestClient.LastBodyWins | restclient.go:57-89 | of two successful encodings the last body and content type win, and other headers are kept |
| RestClient.AddBodyAsWritten | restclient.go:57-89 | as written, a successful encoding into the nil header map panics; otherwise it keeps, fails or sets body and `Content-Type` |
| RestClient.FreshBuilderBodyPanics | restclient.go:31-33 | a builder fresh from `Get` panics on its first successfully encoded body |
| RestClient.CorrectedBodyAgrees | restclient.go:57-89 | on a non-nil header map the code as written never panics and matches the corrected builder |
| RestClient.LimitQueryUrl | restclient_test.go:192-206 | `Get(path).AddQueryParam("limit", 14)` requests `path?limit=14` |
| RestClient.PointerLimitQueryUrl | restclient_test.go:208-223 | as written, the same parameter given through a pointer is dropped, and the request goes to the bare path |
| RestClient.PointerLimitQueryDereferenced | restclient_test.go:220-221 | the query string the test expects, `?limit=14`, is what the dereferencing reading gives for a pointer to 14 |
| RestClient.LimitQuery | restclient_test.go:204 | the parameter `limit` = 14 renders as `?limit=14` |
| RcTest.Status | rctest/serverstatus.go:76-78 | a `Result` with only the status code, which reports an error exactly when the code is 400 or more |
| RcTest.FailedResponse | rctest/serverstatus.go:80-82 | a `Result` with the status code and response error, whose error from 400 on is `[code]msg` |
| RcTest.BracketedCode | result.go:18-20 | the message of a three-digit status with an empty body is `[`, its three digits, `]` |
| RcTest.Status200 | rctest/serverstatus.go:8-10 | status 200, no error |
| RcTest.Status204 | rctest/serverstatus.go:12-14 | status 204, no error |
| RcTest.Status400 | rctest/serverstatus.go:16-18 | status 400, error `[400]` |
| RcTest.Status401 | rctest/serverstatus.go:20-22 | status 401, error `[401]` |
| RcTest.Status402 | rctest/serverstatus.go:24-26 | status 402, error `[402]` |
| RcTest.Status403 | rctest/serverstatus.go:28-30 | status 403, error `[403]` |
| RcTest.Status404 | rctest/serverstatus.go:32-34 | status 404, error `[404]` |
| RcTest.Status405 | rctest/serverstatus.go:36-38 | status 405, error `[405]` |
| RcTest.Status406 | rctest/serverstatus.go:40-42 | status 406, error `[406]` |
| RcTest.Status407 | rctest/serverstatus.go:44-46 | status 407, error `[407]` |
| RcTest.Status408 | rctest/serverstatus.go:48-50 | status 408, error `[408]` |
| RcTest.Status409 | rctest/serverstatus.go:52-54 | status 409, error `[409]` |
| RcTest.Status418 | rctest/serverstatus.go:56-58 | status 418, error `[418]` |
| RcTest.Status500 | rctest/serverstatus.go:60-62 | status 500, error `[500]` |
| RcTest.Status501 | rctest/serverstatus.go:64-66 | status 501, error `[501]` |
| RcTest.Status502 | rctest/serverstatus.go:68-70 | status 502, error `[502]` |
| RcTest.Status503 | rctest/serverstatus.go:72-74 | status 503, error `[503]` |

## Left out

- Logging (`r.log.Printf`, the stopwatch) and `AddLogger`'s effect on output: the model only records which logger is set.
- The transport: `http.NewRequest`, `client.Do` and `ioutil.ReadAll` are one function parameter from the request to an `Exchange`. Timeouts, redirects and closing the body are not modelled.
- The copy of the header map into the request (restclient.go:145-147): Go's header canonicalisation and map iteration order are not modelled, and the request carries the map as it is.
- `encoding/json` and `encoding/xml`: encoders and decoders are parameters. What a decoder writes before it fails is whatever the parameter returns.
- RcQuery.Sprint: a float's `fmt.Sprint` text is carried by the value rather than computed, because shortest round-trip float formatting is not modelled.
- RcQuery.Value: Go's integer widths are not modelled. The values are unbounded integers, which print the same for every in-range value. Values with a `String` or `Error` method, which `fmt.Sprint` would print through that method, are not modelled.
- RcQuery.Query.Add: query keys are not escaped, as in the source. So the decoding round trip (RcQuery.EncodeRoundTrip) needs keys without `&` and `=`.
- RestClient.RestClient.constructor: the header map starts empty rather than nil, the corrected reading under Findings. The code as written is RestClient.AddBodyAsWritten.
- The request body's `io.Reader` is modelled as the bytes it yields.
- RestClient.RestClient.SendRaw: the transport reads the `*bytes.Buffer` body to its end, so a second `Send` on the same builder sends an empty body. The model keeps the body bytes on the builder and sends them again on every call.
- rctest/check.go (test assertions) and the `_test.go` files are not part of this model. Their expectations appear only as the example lemmas above.
- The tests also call `AddHeader`, `NoLogger`, and `Send` returning a `Result`. That is a newer API, absent from restclient.go, and is not modelled.

## Findings

| source | as written | input that shows it | evidently intended | confidence | as-written member | corrected member |
|---|---|---|---|---|---|---|
| rcquery/query.go:41-43 | `Add` has no case for pointers, so every pointer, nil or not, falls into the ignored default (RcQuery.Pairs, which RcQuery.Query.Add follows) | `Add("Query", &str)` with `str == "nil"` and `Add("FlagI", &i)` with `i == 0` (rcquery/query_test.go:49-54) leave the query empty, where the test expects `?Query=nil&FlagI=0`; `AddQueryParam("limit", &limit)` (restclient_test.go:220-221) sends no `limit` | a non-nil pointer adds what its target adds, and a nil pointer adds nothing (RcQuery.PairsDereferenced) | medium, not executed | RcQuery.NilTypesAsWritten | RcQuery.NilTypesDereferenced |
| restclient.go:66-69 | `Get`, `Post`, `Put` and `Delete` leave `header` as the nil map, and `AddJsonBody`/`AddXMLBody` assign `Content-Type` into it after every successful encoding, which panics in Go | `Get(url).AddJsonBody(Body{Msg: "Blob"})` (restclient_test.go:96) | the builder starts with an empty header map, and a successful encoding sets the body and `Content-Type` | high, not executed | RestClient.FreshBuilderBodyPanics | RestClient.CorrectedBodyAgrees |
