/** The outcome record of a call (result.go): the status code, the body
    of a failed response, and a transport error; `Error` unifies the two
    kinds of failure into one optional error. */
module RcResult {
  import opened GoText

  /** `http.StatusOK`, the one status whose body is decoded. */
  const StatusOK: int := 200

  /** `http.StatusBadRequest`, the first status that `Error` reports. */
  const StatusBadRequest: int := 400

  /** `Result`: `statusCode` is 0 until a response is received,
      `responseError` holds the body of a response with status 400 or
      more, `err` a failure of the call itself. */
  datatype Result = Result(statusCode: int, responseError: Bytes, err: Option<GoError>)
  {
    /** `Error`: the transport error when there is one; otherwise, for a
        status of 400 or more (the client and server error classes of
        sections 15.5 and 15.6 of RFC 9110), an error whose text is the
        status code in brackets followed by the response body; otherwise
        none. The receiver is a value, so nothing changes. */
    function Error(): (e: Option<GoError>)
      ensures err.Some? ==> e == err
      ensures e.None? <==> err.None? && statusCode < StatusBadRequest
      ensures err.None? && e.Some? ==> e.value.text == StatusText(statusCode, responseError)
    {
      if err.Some? then err
      else if statusCode >= StatusBadRequest then Some(GoError(StatusText(statusCode, responseError)))
      else None
    }
  }

  /** The two parts of the message of a failed response. */
  datatype StatusMessage = StatusMessage(code: int, body: Bytes)

  /** `"[" + strconv.Itoa(code) + "]" + body`. */
  function StatusText(code: int, body: Bytes): (r: Bytes)
    ensures |r| == |Itoa(code)| + 2 + |body|
    ensures r[0] == '[' && r[1..1 + |Itoa(code)|] == Itoa(code) && r[1 + |Itoa(code)|] == ']'
    ensures r[2 + |Itoa(code)|..] == body
  {
    "[" + Itoa(code) + "]" + body
  }

  /** Index of the first `]` in `s`, if any. */
  function IndexOfClose(s: Bytes): (r: Option<nat>)
    ensures r.Some? ==>
      (r.value < |s| && s[r.value] == ']' && forall j | 0 <= j < r.value :: s[j] != ']')
    ensures r.None? ==> forall j | 0 <= j < |s| :: s[j] != ']'
    decreases |s|
  {
    if s == [] then None
    else if s[0] == ']' then Some(0)
    else match IndexOfClose(s[1..])
      case None => None
      case Some(k) => Some(k + 1)
  }

  /** Reads the code and the body back from an error message. */
  function ParseStatusMessage(text: Bytes): Option<StatusMessage> {
    if |text| == 0 || text[0] != '[' then None
    else match IndexOfClose(text[1..])
      case None => None
      case Some(k) =>
        match ParseInt(text[1..k + 1])
        case None => None
        case Some(code) => Some(StatusMessage(code, text[k + 2..]))
  }

  /** The first `]` after a run of bytes that holds none is the one
      right after that run. */
  lemma {:induction false} IndexOfCloseAfter(d: Bytes, rest: Bytes)
    requires forall j | 0 <= j < |d| :: d[j] != ']'
    ensures IndexOfClose(d + "]" + rest) == Some(|d|)
    decreases |d|
  {
    var s := d + "]" + rest;
    if d == [] {
      assert s[0] == ']';
    } else {
      assert s[0] == d[0];
      assert s[1..] == d[1..] + "]" + rest;
      IndexOfCloseAfter(d[1..], rest);
    }
  }

  /** The decimal text of an integer holds no `]`. */
  lemma ItoaHasNoClose(code: int)
    ensures forall j | 0 <= j < |Itoa(code)| :: Itoa(code)[j] != ']'
  {
    var digits := Itoa(code);
    if code < 0 {
      assert forall j | 1 <= j < |digits| :: digits[j] == Decimal(-code)[j - 1];
    }
  }

  /** The pieces of `[` + digits + `]` + body, by position. */
  lemma BracketedSlices(digits: Bytes, body: Bytes)
    ensures var text := "[" + digits + "]" + body;
      |text| == |digits| + 2 + |body| && text[0] == '[' &&
      text[1..] == digits + "]" + body &&
      text[1..|digits| + 1] == digits && text[|digits| + 2..] == body
  {
    var inner := digits + "]" + body;
    var text := "[" + digits + "]" + body;
    assert text == "[" + inner;
    assert inner[..|digits|] == digits;
    assert inner[|digits| + 1..] == body;
  }

  /** A bracketed prefix without `]` inside is read back as the text
      between the brackets and the rest. */
  lemma ParseBracketed(digits: Bytes, body: Bytes)
    requires forall j | 0 <= j < |digits| :: digits[j] != ']'
    requires ParseInt(digits).Some?
    ensures ParseStatusMessage("[" + digits + "]" + body)
      == Some(StatusMessage(ParseInt(digits).value, body))
  {
    BracketedSlices(digits, body);
    IndexOfCloseAfter(digits, body);
  }

  /** The message of a failed response gives back its status code and
      body: no information is lost in the bracketed format. */
  lemma StatusMessageRoundTrip(code: int, body: Bytes)
    ensures ParseStatusMessage(StatusText(code, body)) == Some(StatusMessage(code, body))
  {
    ItoaHasNoClose(code);
    ItoaRoundTrip(code);
    ParseBracketed(Itoa(code), body);
  }

  /** The message `Error` makes of a failed response gives back the
      response's status code and body. */
  lemma ErrorMessageRoundTrip(r: Result)
    requires r.err.None? && r.statusCode >= StatusBadRequest
    ensures r.Error().Some?
    ensures ParseStatusMessage(r.Error().value.text) == Some(StatusMessage(r.statusCode, r.responseError))
  {
    StatusMessageRoundTrip(r.statusCode, r.responseError);
  }

  /** The example of restclient_test.go: a 400 whose body is
      "Blob is broken\n". */
  lemma BadRequestExample()
    ensures Result(400, "Blob is broken\n", None).Error() == Some(GoError("[" + "400" + "]" + "Blob is broken\n"))
  {
    assert Decimal(4) == "4" && Decimal(40) == "40" && Decimal(400) == "400";
  }
}
