/** Bytes, errors and the two wire messages of the peer protocol.

    A Go `string` is an immutable sequence of bytes, so keys, group names,
    peer addresses and error texts are all `Bytes` here, and the Go
    conversions `[]byte(s)` and `string(b)` are the identity. */
module Wire {

  newtype byte = x: int | 0 <= x < 256

  type Bytes = seq<byte>

  /** The bytes of a character literal: each character's code modulo 256,
      which is its UTF-8 encoding for the ASCII text the core uses. */
  function Text(s: string): (b: Bytes)
    ensures |b| == |s|
    ensures forall i :: 0 <= i < |s| ==> b[i] as int == s[i] as int % 256
  {
    if s == [] then [] else [(s[0] as int % 256) as byte] + Text(s[1..])
  }

  datatype Option<T> = None | Some(value: T)

  /** A Go `error`: all the core ever does with one is carry or print its text. */
  datatype Error = Error(text: Bytes)

  datatype Result<T> = Ok(value: T) | Err(error: Error)

  /** pb.Request: which group, which key. */
  datatype Request = Request(group: Bytes, key: Bytes)

  /** pb.Response: a 200 code means `value` is the cached bytes; any other
      code means `value` is the text of an error. */
  datatype Response = Response(value: Bytes, code: int)

  /** The protobuf encoding of the two messages, which may fail either way. */
  datatype Codec = Codec(
    marshalRequest: Request -> Result<Bytes>,
    unmarshalRequest: Bytes -> Result<Request>,
    marshalResponse: Response -> Result<Bytes>,
    unmarshalResponse: Bytes -> Result<Response>)

  /** The one property of the encoding the protocol relies on: what was
      marshalled unmarshals to the same message. Lemmas take it as a
      hypothesis. */
  ghost predicate RoundTrips(c: Codec) {
    && (forall m :: c.marshalRequest(m).Ok? ==> c.unmarshalRequest(c.marshalRequest(m).value) == Ok(m))
    && (forall m :: c.marshalResponse(m).Ok? ==> c.unmarshalResponse(c.marshalResponse(m).value) == Ok(m))
  }
}
