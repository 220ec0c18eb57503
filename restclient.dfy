/** The fluent request builder and its send step (restclient.go). A
    builder holds the method, path, body, headers and query of a request
    and a sticky error; `send` turns it into a status code and an error,
    with -1 (`RestClientError`) for every failure of the call itself. The
    transport (building the request, `client.Do`, reading the body) and
    the JSON and XML codecs are parameters. */
module RestClient {
  import opened GoText
  import opened Codecs
  import opened RcQuery
  import opened RcResult

  const JsonContentType: Bytes := "application/json; charset=utf-8"
  const XmlContentType: Bytes := "application/xml; charset=utf-8"
  const ContentType: Bytes := "Content-Type"
  const RestClientError: int := -1

  datatype Method = MethodGet | MethodPost | MethodPut | MethodDelete
  {
    /** The method's name on the wire. */
    function Name(): Bytes {
      match this
      case MethodGet => "GET"
      case MethodPost => "POST"
      case MethodPut => "PUT"
      case MethodDelete => "DELETE"
    }
  }

  /** The logger a builder writes to: the package default or one the
      caller supplied (named here only so that it can be told apart). */
  datatype Logger = DefaultLogger | CallerLogger(name: Bytes)

  /** What `send` hands to the transport. */
  datatype Request = Request(verb: Bytes, url: Bytes, body: Option<Bytes>, header: map<Bytes, Bytes>)

  /** How the transport ends: `http.NewRequest` fails, `client.Do` fails,
      reading the body fails after part of it was read, or a response with
      its status code and whole body arrives. */
  datatype Exchange =
    | NewRequestFailed(err: GoError)
    | DoFailed(err: GoError)
    | ReadFailed(partial: Bytes, err: GoError)
    | Received(status: nat, body: Bytes)

  /** The named results of `send`. */
  datatype Outcome = Outcome(body: Bytes, statusCode: int, err: Option<GoError>)

  /** The classification `send` makes of an exchange: every failure of the
      call is status -1 with its error; a received response keeps its
      status code, and is an error whose text is the body exactly when its
      status is 400 or more. */
  function Classify(ex: Exchange): (o: Outcome)
    ensures o.statusCode == RestClientError <==> !ex.Received?
    ensures !ex.Received? ==> o.err == Some(ex.err)
    ensures ex.Received? ==> o.statusCode == ex.status && o.body == ex.body
    ensures ex.Received? ==> (o.err.Some? <==> ex.status >= StatusBadRequest)
    ensures ex.Received? && o.err.Some? ==> o.err.value.text == ex.body
  {
    match ex
    case NewRequestFailed(e) => Outcome([], RestClientError, Some(e))
    case DoFailed(e) => Outcome([], RestClientError, Some(e))
    case ReadFailed(partial, e) => Outcome(partial, RestClientError, Some(e))
    case Received(status, body) =>
      Outcome(body, status, if status >= StatusBadRequest then Some(GoError(body)) else None)
  }

  /** What `SendAndGetJsonResponse` and `SendAndGetXMLResponse` return
      after `send`, given the decoder's error on the body: `send`'s status
      and error unless the status is exactly 200; for 200, status -1 with
      the decoder's error if it failed, and otherwise 200 with the
      decoder's nil error in place of `send`'s. */
  function AfterDecode(o: Outcome, decodeErr: Option<GoError>): (r: (int, Option<GoError>))
    ensures o.statusCode != StatusOK ==> r == (o.statusCode, o.err)
    ensures o.statusCode == StatusOK && decodeErr.Some? ==> r == (RestClientError, decodeErr)
    ensures o.statusCode == StatusOK && decodeErr.None? ==> r == (StatusOK, None)
  {
    if o.statusCode == RestClientError then (o.statusCode, o.err)
    else if o.statusCode == StatusOK then
      if decodeErr.Some? then (RestClientError, decodeErr) else (StatusOK, None)
    else (o.statusCode, o.err)
  }

  class RestClient {
    var log: Logger
    var requestPath: Bytes
    var requestMethod: Method
    var requestBody: Option<Bytes>
    var header: map<Bytes, Bytes>
    var query: Query
    var err: Option<GoError>

    ghost predicate Valid()
      reads this, query
    {
      query.Valid()
    }

    /** The builder every factory returns: the default logger, the given
        method and path, no body, no headers, an empty query, no error. */
    constructor (m: Method, path: Bytes)
      ensures Valid() && fresh(query)
      ensures log == DefaultLogger && requestMethod == m && requestPath == path
      ensures requestBody == None && header == map[] && err == None
      ensures query.pairs == []
    {
      log := DefaultLogger;
      requestPath := path;
      requestMethod := m;
      requestBody := None;
      header := map[];
      query := new Query();
      err := None;
    }

    /** `AddLogger`: replaces the logger, whatever the error state. */
    method AddLogger(logger: Logger)
      modifies this
      ensures log == logger
      ensures requestPath == old(requestPath) && requestMethod == old(requestMethod)
      ensures requestBody == old(requestBody) && header == old(header)
      ensures query == old(query) && err == old(err)
    {
      log := logger;
    }

    /** `AddQueryParam`: adds to the query, whatever the error state. */
    method AddQueryParam(key: Bytes, value: Value)
      requires Valid()
      modifies query
      ensures Valid()
      ensures query.pairs == old(query.pairs) + Pairs(key, value)
    {
      query.Add(key, value);
    }

    /** `AddJsonBody`: after an error, nothing; otherwise the JSON encoding
        of `input` becomes the body and `Content-Type` is set to JSON, or
        the encoder's error is recorded and nothing else changes. */
    method AddJsonBody<I>(input: I, encode: I -> Encoded)
      modifies this
      ensures BodyEffect(old(err), old(requestBody), old(header), encode(input), JsonContentType,
        err, requestBody, header)
      ensures log == old(log) && requestPath == old(requestPath)
      ensures requestMethod == old(requestMethod) && query == old(query)
    {
      SetEncodedBody(encode(input), JsonContentType);
    }

    /** `AddXMLBody`: as `AddJsonBody`, with the XML encoder and content type. */
    method AddXMLBody<I>(input: I, encode: I -> Encoded)
      modifies this
      ensures BodyEffect(old(err), old(requestBody), old(header), encode(input), XmlContentType,
        err, requestBody, header)
      ensures log == old(log) && requestPath == old(requestPath)
      ensures requestMethod == old(requestMethod) && query == old(query)
    {
      SetEncodedBody(encode(input), XmlContentType);
    }

    method SetEncodedBody(encoded: Encoded, mediaType: Bytes)
      modifies this
      ensures BodyEffect(old(err), old(requestBody), old(header), encoded, mediaType,
        err, requestBody, header)
      ensures log == old(log) && requestPath == old(requestPath)
      ensures requestMethod == old(requestMethod) && query == old(query)
    {
      if err.Some? {
        return;
      }
      match encoded {
        case EncodeFailed(e) =>
          err := Some(e);
        case Encoded(data) =>
          requestBody := Some(data);
          header := header[ContentType := mediaType];
      }
    }

    /** The request `send` builds: the URL is the path followed by the
        query string, with nothing in between. */
    function RequestOf(): (req: Request)
      reads this, query
      requires Valid()
      ensures req.verb == requestMethod.Name()
      ensures req.url == requestPath + Encode(query.pairs)
      ensures query.pairs == [] ==> req.url == requestPath
    {
      Request(requestMethod.Name(), requestPath + query.query, requestBody, header)
    }

    /** What `send` returns for a given transport. */
    ghost function SendOutcome(transport: Request -> Exchange): (r: Outcome)
      reads this, query
      requires Valid()
      ensures err.Some? ==> r == Outcome([], RestClientError, err)
      ensures err.None? ==>
        r == Classify(transport(Request(requestMethod.Name(), requestPath + Encode(query.pairs), requestBody, header)))
    {
      if err.Some? then Outcome([], RestClientError, err)
      else Classify(transport(RequestOf()))
    }

    /** `send`: with a sticky error, status -1 and that error, before any
        request is built; otherwise the classification of the exchange for
        the request built from the builder. */
    method SendRaw(transport: Request -> Exchange) returns (body: Bytes, statusCode: int, e: Option<GoError>)
      requires Valid()
      ensures Outcome(body, statusCode, e) == SendOutcome(transport)
      ensures err.Some? ==> statusCode == RestClientError && e == err
    {
      if err.Some? {
        return [], RestClientError, err;
      }
      var url := requestPath + query.query;
      var exchange := transport(Request(requestMethod.Name(), url, requestBody, header));
      match exchange {
        case NewRequestFailed(x) =>
          return [], RestClientError, Some(x);
        case DoFailed(x) =>
          return [], RestClientError, Some(x);
        case ReadFailed(partial, x) =>
          return partial, RestClientError, Some(x);
        case Received(status, received) =>
          body, statusCode := received, status;
          if status >= StatusBadRequest {
            e := Some(GoError(received));
          } else {
            e := None;
          }
      }
    }

    /** `Send`: the status code and error of `send`. */
    method Send(transport: Request -> Exchange) returns (statusCode: int, e: Option<GoError>)
      requires Valid()
      ensures statusCode == SendOutcome(transport).statusCode && e == SendOutcome(transport).err
    {
      var _, s, x := SendRaw(transport);
      statusCode, e := s, x;
    }

    /** `SendAndGetJsonResponse`: `send`, then, for status 200 only, the
        JSON decoder on the body into `output`. */
    method SendAndGetJsonResponse<T>(output: Target<T>, transport: Request -> Exchange,
      unmarshal: (Bytes, T) -> Decoded<T>)
      returns (statusCode: int, e: Option<GoError>)
      requires Valid()
      modifies output
      ensures SendAndDecodeEffect(SendOutcome(transport), old(output.value), unmarshal,
        statusCode, e, output.value)
    {
      statusCode, e := SendAndDecode(output, transport, unmarshal);
    }

    /** `SendAndGetXMLResponse`: as `SendAndGetJsonResponse`, with the XML
        decoder. */
    method SendAndGetXMLResponse<T>(output: Target<T>, transport: Request -> Exchange,
      unmarshal: (Bytes, T) -> Decoded<T>)
      returns (statusCode: int, e: Option<GoError>)
      requires Valid()
      modifies output
      ensures SendAndDecodeEffect(SendOutcome(transport), old(output.value), unmarshal,
        statusCode, e, output.value)
    {
      statusCode, e := SendAndDecode(output, transport, unmarshal);
    }

    method SendAndDecode<T>(output: Target<T>, transport: Request -> Exchange,
      unmarshal: (Bytes, T) -> Decoded<T>)
      returns (statusCode: int, e: Option<GoError>)
      requires Valid()
      modifies output
      ensures SendAndDecodeEffect(SendOutcome(transport), old(output.value), unmarshal,
        statusCode, e, output.value)
    {
      var body;
      body, statusCode, e := SendRaw(transport);
      if statusCode == RestClientError {
        return;
      }
      if statusCode == StatusOK {
        var decoded := unmarshal(body, output.value);
        output.value := decoded.written;
        if decoded.err.Some? {
          return RestClientError, decoded.err;
        }
        e := decoded.err;
      }
    }
  }

  /** `Get`: a builder for a GET request to `path`. */
  method Get(path: Bytes) returns (r: RestClient)
    ensures fresh(r) && fresh(r.query) && r.Valid()
    ensures r.requestMethod == MethodGet && r.requestPath == path && r.log == DefaultLogger
    ensures r.requestBody == None && r.header == map[] && r.query.pairs == [] && r.err == None
  {
    r := new RestClient(MethodGet, path);
  }

  /** `Post`: a builder for a POST request to `path`. */
  method Post(path: Bytes) returns (r: RestClient)
    ensures fresh(r) && fresh(r.query) && r.Valid()
    ensures r.requestMethod == MethodPost && r.requestPath == path && r.log == DefaultLogger
    ensures r.requestBody == None && r.header == map[] && r.query.pairs == [] && r.err == None
  {
    r := new RestClient(MethodPost, path);
  }

  /** `Put`: a builder for a PUT request to `path`. */
  method Put(path: Bytes) returns (r: RestClient)
    ensures fresh(r) && fresh(r.query) && r.Valid()
    ensures r.requestMethod == MethodPut && r.requestPath == path && r.log == DefaultLogger
    ensures r.requestBody == None && r.header == map[] && r.query.pairs == [] && r.err == None
  {
    r := new RestClient(MethodPut, path);
  }

  /** `Delete`: a builder for a DELETE request to `path`. */
  method Delete(path: Bytes) returns (r: RestClient)
    ensures fresh(r) && fresh(r.query) && r.Valid()
    ensures r.requestMethod == MethodDelete && r.requestPath == path && r.log == DefaultLogger
    ensures r.requestBody == None && r.header == map[] && r.query.pairs == [] && r.err == None
  {
    r := new RestClient(MethodDelete, path);
  }

  /** What `AddJsonBody` and `AddXMLBody` do to the error, the body and the
      headers. */
  ghost predicate BodyEffect(err: Option<GoError>, body: Option<Bytes>, header: map<Bytes, Bytes>,
    encoded: Encoded, mediaType: Bytes,
    err': Option<GoError>, body': Option<Bytes>, header': map<Bytes, Bytes>)
  {
    if err.Some? then
      err' == err && body' == body && header' == header
    else match encoded
      case EncodeFailed(e) => err' == Some(e) && body' == body && header' == header
      case Encoded(data) => err' == None && body' == Some(data) && header' == header[ContentType := mediaType]
  }

  /** What the `SendAndGet...Response` calls return and leave in the
      target, given `send`'s outcome. */
  ghost predicate SendAndDecodeEffect<T>(o: Outcome, target: T, unmarshal: (Bytes, T) -> Decoded<T>,
    statusCode: int, e: Option<GoError>, target': T)
  {
    if o.statusCode == StatusOK then
      (statusCode, e) == AfterDecode(o, unmarshal(o.body, target).err) &&
      target' == unmarshal(o.body, target).written
    else
      (statusCode, e) == AfterDecode(o, None) && target' == target
  }

  /** A received response is an error for `send` exactly when the `Result`
      the newer builder makes of it (status code, body as response error
      from 400 on, no transport error) reports one, and the `Result`'s
      message is the status in brackets followed by `send`'s error text. */
  lemma ClassifyAgreesWithResult(status: nat, body: Bytes)
    ensures var o := Classify(Received(status, body));
      var r := Result(status, if status >= StatusBadRequest then body else [], None);
      (o.err.Some? <==> r.Error().Some?) &&
      (o.err.Some? ==> r.Error().value.text == StatusText(status, o.err.value.text))
  {
  }

  /** Once one body encoding has failed, a later successful one changes
      nothing: the first error stays and the request keeps its old body
      and headers. */
  lemma FirstEncodeErrorWins(err0: Option<GoError>, body0: Option<Bytes>, header0: map<Bytes, Bytes>,
    failure: GoError, data: Bytes, type1: Bytes, type2: Bytes,
    err1: Option<GoError>, body1: Option<Bytes>, header1: map<Bytes, Bytes>,
    err2: Option<GoError>, body2: Option<Bytes>, header2: map<Bytes, Bytes>)
    requires err0.None?
    requires BodyEffect(err0, body0, header0, EncodeFailed(failure), type1, err1, body1, header1)
    requires BodyEffect(err1, body1, header1, Encoded(data), type2, err2, body2, header2)
    ensures err2 == Some(failure) && body2 == body0 && header2 == header0
  {
  }

  /** Two successful encodings: the last body and content type win. */
  lemma LastBodyWins(err0: Option<GoError>, body0: Option<Bytes>, header0: map<Bytes, Bytes>,
    data1: Bytes, data2: Bytes, type1: Bytes, type2: Bytes,
    err1: Option<GoError>, body1: Option<Bytes>, header1: map<Bytes, Bytes>,
    err2: Option<GoError>, body2: Option<Bytes>, header2: map<Bytes, Bytes>)
    requires err0.None?
    requires BodyEffect(err0, body0, header0, Encoded(data1), type1, err1, body1, header1)
    requires BodyEffect(err1, body1, header1, Encoded(data2), type2, err2, body2, header2)
    ensures err2.None? && body2 == Some(data2) && header2[ContentType] == type2
    ensures forall k | k in header0 && k != ContentType :: k in header2 && header2[k] == header0[k]
  {
  }

  // The header map as written. `Get`, `Post`, `Put` and `Delete` leave
  // the builder's `header` at Go's zero value, the nil map, which reads as
  // empty but panics on assignment; `AddJsonBody` and `AddXMLBody` assign
  // `Content-Type` into it after every successful encoding. The class above
  // starts from the empty map instead, as the callers evidently intend.

  /** What one body encoding does as written: nothing after an earlier
      error, the encoder's error, a new body and header map, or a panic
      from writing into the nil map. */
  datatype BodyStep =
    | BodyKept
    | BodyFailed(e: GoError)
    | BodySet(data: Bytes, header: map<Bytes, Bytes>)
    | Panicked

  /** `AddJsonBody` and `AddXMLBody` as written, with `None` for the nil
      map. */
  function AddBodyAsWritten(err: Option<GoError>, header: Option<map<Bytes, Bytes>>,
    encoded: Encoded, mediaType: Bytes): (r: BodyStep)
    ensures r.Panicked? <==> err.None? && encoded.Encoded? && header.None?
    ensures r.BodyKept? <==> err.Some?
    ensures r.BodyFailed? ==> encoded == EncodeFailed(r.e)
    ensures r.BodySet? ==> encoded == Encoded(r.data) && ContentType in r.header && r.header[ContentType] == mediaType
  {
    if err.Some? then BodyKept
    else match encoded
      case EncodeFailed(e) => BodyFailed(e)
      case Encoded(data) =>
        if header.None? then Panicked else BodySet(data, header.value[ContentType := mediaType])
  }

  /** A builder fresh from `Get` (no error, the nil header map) panics on
      the first body whose encoding succeeds. */
  lemma FreshBuilderBodyPanics(data: Bytes, mediaType: Bytes)
    ensures AddBodyAsWritten(None, None, Encoded(data), mediaType) == Panicked
  {
  }

  /** On a non-nil header map the code as written never panics and does
      what `BodyEffect` states of the corrected builder. */
  lemma CorrectedBodyAgrees(err: Option<GoError>, body: Option<Bytes>, header: map<Bytes, Bytes>,
    encoded: Encoded, mediaType: Bytes,
    err': Option<GoError>, body': Option<Bytes>, header': map<Bytes, Bytes>)
    requires BodyEffect(err, body, header, encoded, mediaType, err', body', header')
    ensures var r := AddBodyAsWritten(err, Some(header), encoded, mediaType);
      !r.Panicked? &&
      (r.BodyKept? ==> err' == err && body' == body && header' == header) &&
      (r.BodyFailed? ==> err' == Some(r.e) && body' == body && header' == header) &&
      (r.BodySet? ==> err' == None && body' == Some(r.data) && header' == r.header)
  {
  }

  /** The request of restclient_test.go `TestQueryParam_ok`: a GET with
      the query parameter `limit` set to 14 goes to the path followed by
      `?limit=14`. */
  method LimitQueryUrl(path: Bytes) returns (url: Bytes)
    ensures url == path + ("?" + "limit=14")
  {
    var client := Get(path);
    client.AddQueryParam("limit", Int(14));
    url := client.RequestOf().url;
    LimitQuery();
  }

  /** The request of restclient_test.go `TestPointerQueryParam_ok`: the
      same parameter given through a pointer to 14. As written, `Add`
      drops the pointer and the request goes to the bare path. */
  method PointerLimitQueryUrl(path: Bytes) returns (url: Bytes)
    ensures url == path
  {
    var client := Get(path);
    client.AddQueryParam("limit", Ptr(Some(Int(14))));
    url := client.RequestOf().url;
  }

  /** The query string that test expects, which the dereferencing reading
      gives. */
  lemma PointerLimitQueryDereferenced()
    ensures Encode(PairsDereferenced("limit", Ptr(Some(Int(14))))) == "?" + "limit=14"
  {
    PointerDereferenced("limit", Int(14));
    AsWrittenAgreesWithoutPointers("limit", Int(14));
    LimitQuery();
  }

  lemma LimitQuery()
    ensures Encode(Pairs("limit", Int(14))) == "?" + "limit=14"
  {
    assert Pairs("limit", Int(14)) == [Pair("limit", "14")] by {
      assert Decimal(14) == "14";
    }
    EncodeOne(Pair("limit", "14"));
    assert Fragment(Pair("limit", "14")) == "limit=14";
  }
}
