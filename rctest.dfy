/** Fixtures for tests (rctest/serverstatus.go): `Result` values for fixed
    HTTP status codes (section 15 of RFC 9110), with no response error and
    no transport error. */
module RcTest {
  import opened GoText
  import opened RcResult

  /** `Status`: a `Result` with the given code and nothing else. */
  function Status(code: int): (r: Result)
    ensures r.statusCode == code && r.responseError == [] && r.err.None?
    ensures r.Error().None? <==> code < StatusBadRequest
  {
    Result(code, [], None)
  }

  /** `FailedResponse`: a `Result` with the given code and response error. */
  function FailedResponse(code: int, msg: Bytes): (r: Result)
    ensures r.statusCode == code && r.responseError == msg && r.err.None?
    ensures code >= StatusBadRequest ==> r.Error() == Some(GoError(StatusText(code, msg)))
  {
    Result(code, msg, None)
  }

  /** `Status200`: `Status(http.StatusOK)`, which reports no error. */
  function Status200(): (r: Result)
    ensures r == Status(200) && r.Error() == None
  {
    Status(200)
  }

  /** `Status204`: `Status(http.StatusNoContent)`, which reports no error. */
  function Status204(): (r: Result)
    ensures r == Status(204) && r.Error() == None
  {
    Status(204)
  }

  /** `Status400`: `Status(http.StatusBadRequest)`, which reports the error "[400]". */
  function Status400(): (r: Result)
    ensures r == Status(400) && r.Error() == Some(GoError("[400]"))
  {
    BracketedCode(400);
    Status(400)
  }

  /** `Status401`: `Status(http.StatusUnauthorized)`, which reports the error "[401]". */
  function Status401(): (r: Result)
    ensures r == Status(401) && r.Error() == Some(GoError("[401]"))
  {
    BracketedCode(401);
    Status(401)
  }

  /** `Status402`: `Status(http.StatusPaymentRequired)`, which reports the error "[402]". */
  function Status402(): (r: Result)
    ensures r == Status(402) && r.Error() == Some(GoError("[402]"))
  {
    BracketedCode(402);
    Status(402)
  }

  /** `Status403`: `Status(http.StatusForbidden)`, which reports the error "[403]". */
  function Status403(): (r: Result)
    ensures r == Status(403) && r.Error() == Some(GoError("[403]"))
  {
    BracketedCode(403);
    Status(403)
  }

  /** `Status404`: `Status(http.StatusNotFound)`, which reports the error "[404]". */
  function Status404(): (r: Result)
    ensures r == Status(404) && r.Error() == Some(GoError("[404]"))
  {
    BracketedCode(404);
    Status(404)
  }

  /** `Status405`: `Status(http.StatusMethodNotAllowed)`, which reports the error "[405]". */
  function Status405(): (r: Result)
    ensures r == Status(405) && r.Error() == Some(GoError("[405]"))
  {
    BracketedCode(405);
    Status(405)
  }

  /** `Status406`: `Status(http.StatusNotAcceptable)`, which reports the error "[406]". */
  function Status406(): (r: Result)
    ensures r == Status(406) && r.Error() == Some(GoError("[406]"))
  {
    BracketedCode(406);
    Status(406)
  }

  /** `Status407`: `Status(http.StatusProxyAuthRequired)`, which reports the error "[407]". */
  function Status407(): (r: Result)
    ensures r == Status(407) && r.Error() == Some(GoError("[407]"))
  {
    BracketedCode(407);
    Status(407)
  }

  /** `Status408`: `Status(http.StatusRequestTimeout)`, which reports the error "[408]". */
  function Status408(): (r: Result)
    ensures r == Status(408) && r.Error() == Some(GoError("[408]"))
  {
    BracketedCode(408);
    Status(408)
  }

  /** `Status409`: `Status(http.StatusConflict)`, which reports the error "[409]". */
  function Status409(): (r: Result)
    ensures r == Status(409) && r.Error() == Some(GoError("[409]"))
  {
    BracketedCode(409);
    Status(409)
  }

  /** `Status418`: `Status(http.StatusTeapot)`, which reports the error "[418]". */
  function Status418(): (r: Result)
    ensures r == Status(418) && r.Error() == Some(GoError("[418]"))
  {
    BracketedCode(418);
    Status(418)
  }

  /** `Status500`: `Status(http.StatusInternalServerError)`, which reports the error "[500]". */
  function Status500(): (r: Result)
    ensures r == Status(500) && r.Error() == Some(GoError("[500]"))
  {
    BracketedCode(500);
    Status(500)
  }

  /** `Status501`: `Status(http.StatusNotImplemented)`, which reports the error "[501]". */
  function Status501(): (r: Result)
    ensures r == Status(501) && r.Error() == Some(GoError("[501]"))
  {
    BracketedCode(501);
    Status(501)
  }

  /** `Status502`: `Status(http.StatusBadGateway)`, which reports the error "[502]". */
  function Status502(): (r: Result)
    ensures r == Status(502) && r.Error() == Some(GoError("[502]"))
  {
    BracketedCode(502);
    Status(502)
  }

  /** `Status503`: `Status(http.StatusServiceUnavailable)`, which reports the error "[503]". */
  function Status503(): (r: Result)
    ensures r == Status(503) && r.Error() == Some(GoError("[503]"))
  {
    BracketedCode(503);
    Status(503)
  }

  /** The message of a bare status code of three digits. */
  lemma BracketedCode(code: int)
    requires 100 <= code < 1000
    ensures StatusText(code, []) == ['[', DigitChar(code / 100), DigitChar(code / 10 % 10), DigitChar(code % 10), ']']
  {
    assert Decimal(code) == Decimal(code / 10) + [DigitChar(code % 10)];
    assert Decimal(code / 10) == Decimal(code / 100) + [DigitChar(code / 10 % 10)];
  }
}
