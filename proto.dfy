/**
 * Protobuf messages as the RPC layer sees them. The encoders and decoders are
 * generated by prost and are not part of this model: a codec is a pair of
 * functions handed in by the caller, and the properties that need the codec to
 * be faithful take `RoundTrips` as a hypothesis.
 */
module Proto {
  import opened Wrappers
  import opened Primitives

  /** `prost::EncodeError`, by its display text. */
  datatype EncodeError = EncodeError(description: string)

  /** `prost::DecodeError`, by its display text. */
  datatype DecodeError = DecodeError(description: string)

  datatype ProtoCodec<!T> = ProtoCodec(encode: T -> Result<bytes, EncodeError>, decode: bytes -> Result<T, DecodeError>)

  /** Whatever is encoded decodes back to itself. */
  ghost predicate RoundTrips<T(!new)>(c: ProtoCodec<T>)
  {
    forall x :: c.encode(x).Ok? ==> c.decode(c.encode(x).value) == Ok(x)
  }

  /** Encoding never fails (prost encoding into a growable `Vec`). */
  ghost predicate EncodesAll<T(!new)>(c: ProtoCodec<T>)
  {
    forall x :: c.encode(x).Ok?
  }

  /** The request header: the URL naming service and method. */
  datatype RequestHeader = RequestHeader(url: string)

  /** The reply header: the RPC status of the call. */
  datatype ReplyHeader = ReplyHeader(statusCode: int32, statusMessage: string)

  /** `ReplyHeader::default()`. */
  const DefaultReplyHeader: ReplyHeader := ReplyHeader(0, "")

  /** The codecs of the two fixed headers of the wire format. */
  datatype HeaderCodecs = HeaderCodecs(request: ProtoCodec<RequestHeader>, reply: ProtoCodec<ReplyHeader>)
}
