/** A received response (responseitem.go): its headers, its body and its
    `Result`, with views that each give nothing once the `Result` holds
    an error. */
module RcResponse {
  import opened GoText
  import opened Codecs
  import opened RcResult

  class ResponseItem {
    var header: map<Bytes, seq<Bytes>>
    var body: Bytes
    var result: Result

    constructor (header: map<Bytes, seq<Bytes>>, body: Bytes, result: Result)
      ensures this.header == header && this.body == body && this.result == result
    {
      this.header := header;
      this.body := body;
      this.result := result;
    }

    /** `String`: the body as text, or the empty string once there is an
        error. */
    function String(): (output: Bytes)
      reads this
      ensures result.err.Some? ==> output == []
      ensures result.err.None? ==> output == body
    {
      if result.err.Some? then [] else body
    }

    /** `Header`: the values of a response header, or nothing once there
        is an error; a missing key gives no values. */
    function Header(key: Bytes): (r: (seq<Bytes>, bool))
      reads this
      ensures r.1 <==> result.err.None? && key in header
      ensures r.1 ==> r.0 == header[key]
      ensures !r.1 ==> r.0 == []
    {
      if result.err.Some? || key !in header then ([], false) else (header[key], true)
    }

    /** `Error`: the error of the `Result`. */
    function Error(): (e: Option<GoError>)
      reads this
      ensures e == result.Error()
    {
      result.Error()
    }

    /** `Json`: decodes the body into `output` with the JSON decoder, only
        for status 200 and only when there is no error yet; the decoder's
        error becomes the error of the `Result`. */
    method Json<T>(output: Target<T>, unmarshal: (Bytes, T) -> Decoded<T>)
      modifies this, output
      ensures DecodeEffect(old(result), body, old(output.value), unmarshal, result, output.value)
      ensures header == old(header) && body == old(body)
    {
      DecodeInto(output, unmarshal);
    }

    /** `XML`: as `Json`, with the XML decoder. */
    method XML<T>(output: Target<T>, unmarshal: (Bytes, T) -> Decoded<T>)
      modifies this, output
      ensures DecodeEffect(old(result), body, old(output.value), unmarshal, result, output.value)
      ensures header == old(header) && body == old(body)
    {
      DecodeInto(output, unmarshal);
    }

    method DecodeInto<T>(output: Target<T>, unmarshal: (Bytes, T) -> Decoded<T>)
      modifies this, output
      ensures DecodeEffect(old(result), body, old(output.value), unmarshal, result, output.value)
      ensures header == old(header) && body == old(body)
    {
      if result.err.Some? {
        return;
      }
      if result.statusCode == StatusOK {
        var decoded := unmarshal(body, output.value);
        output.value := decoded.written;
        result := result.(err := decoded.err);
      }
    }
  }

  /** What `Json` and `XML` do to the `Result` and to the target: nothing
      after an error or for a status other than 200; otherwise the target
      holds what the decoder wrote, the `Result`'s error becomes the
      decoder's, and its status code and response error stay as they were. */
  ghost predicate DecodeEffect<T>(before: Result, body: Bytes, target: T,
    unmarshal: (Bytes, T) -> Decoded<T>, after: Result, targetAfter: T)
  {
    if before.err.Some? || before.statusCode != StatusOK then
      after == before && targetAfter == target
    else
      after == before.(err := unmarshal(body, target).err) &&
      targetAfter == unmarshal(body, target).written
  }

  /** After a decode that failed, every view short-circuits: `String` is
      empty, no header is found, and a later `XML` (or `Json`) leaves the
      item and the target as they are. */
  method FailedDecodeIsSticky<T>(item: ResponseItem, output: Target<T>,
    unmarshal: (Bytes, T) -> Decoded<T>, next: (Bytes, T) -> Decoded<T>, key: Bytes)
    requires item.result.err.None? && item.result.statusCode == StatusOK
    requires unmarshal(item.body, output.value).err.Some?
    modifies item, output
    ensures item.result == old(item.result).(err := unmarshal(old(item.body), old(output.value)).err)
    ensures output.value == unmarshal(old(item.body), old(output.value)).written
    ensures item.body == old(item.body) && item.header == old(item.header)
    ensures item.Error() == unmarshal(old(item.body), old(output.value)).err
    ensures item.String() == [] && item.Header(key) == ([], false)
  {
    item.Json(output, unmarshal);
    var failed, written := item.result, output.value;
    item.XML(output, next);
    assert item.result == failed && output.value == written;
  }
}
