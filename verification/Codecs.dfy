/** The codec of a namespace: calls and results as bytes. */
module Codecs {
  import opened Wrappers
  import opened Tasks
  import opened InFlight

  datatype CallContent = CallContent(arg: Value, chain: Chain)

  datatype Codec = Codec(
    encodeCall: CallContent -> Bytes,
    decodeCall: Bytes -> CallContent,
    encodeResult: Res -> Bytes,
    decodeResult: Bytes -> Res)

  /** Decoding undoes encoding, and no encoding is empty. */
  ghost predicate Lossless(c: Codec)
  {
    && (forall x :: c.decodeCall(c.encodeCall(x)) == x)
    && (forall x :: c.decodeResult(c.encodeResult(x)) == x && c.encodeResult(x) != [])
  }

  /** What a stub makes of the bytes a request returned. */
  function Decoded(c: Codec, response: Bytes): Res
  {
    if response == [] then Err(Exc(EmptyResponse, None)) else c.decodeResult(response)
  }
}
