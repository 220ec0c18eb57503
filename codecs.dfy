/** What the model assumes of `encoding/json` and `encoding/xml`: they are
    not modelled, and every call into them is a parameter of the operation
    that makes it. */
module Codecs {
  import opened GoText

  /** What an encoder gives back for a value: its bytes or an error. */
  datatype Encoded = Encoded(data: Bytes) | EncodeFailed(err: GoError)

  /** What a decoder leaves behind: the value it wrote into the target
      (a decoder may write part of it before it fails) and its error. */
  datatype Decoded<T> = Decoded(written: T, err: Option<GoError>)

  /** The variable a caller passes by pointer to be decoded into. */
  class Target<T> {
    var value: T

    constructor (value: T)
      ensures this.value == value
    {
      this.value := value;
    }
  }
}
