/**
 * The RPC client: frame a request, send it through the transport, and read the
 * reply header's status before decoding the body.
 */
module Client {
  import opened Wrappers
  import opened Primitives
  import opened Proto
  import opened Sys
  import Tonic
  import Server

  /** The transport's request primitive: a timeout and a message to a reply or a COM error. */
  type Transport = (u32, Message) -> Result<Message, ComError>

  /** `Client2`: a wrapper around the transport of one connection. */
  datatype Client2 = Client2(transport: Transport)

  const TransportFailed: string := "client transport failed code: "

  /** The status message of a transport failure: the HRESULT in hex, then the error text. */
  function TransportFailure(e: ComError): (s: string)
    ensures |s| == |TransportFailed| + 19 + |e.message|
    ensures s[..|TransportFailed|] == TransportFailed
    ensures s[|TransportFailed|..|TransportFailed| + 10] == HResultText(e.code)
    ensures s[|TransportFailed| + 10..] == " message:" + e.message
  {
    TransportFailed + HResultText(e.code) + " message:" + e.message
  }

  /** The request message: the encoded `RequestHeader{url}` and the encoded request. */
  function Outgoing<Req>(codecs: HeaderCodecs, reqCodec: ProtoCodec<Req>, url: string, msg: Req): (m: Message)
    requires codecs.request.encode(RequestHeader(url)).Ok?
    requires reqCodec.encode(msg).Ok?
    ensures m.Readable()
    ensures m.header == codecs.request.encode(RequestHeader(url)).value
    ensures m.body == reqCodec.encode(msg).value
  {
    CreateMessage(codecs.request.encode(RequestHeader(url)).value, reqCodec.encode(msg).value)
  }

  /** The early-return chain of `request` after the transport call. */
  function Interpret<Resp>(codecs: HeaderCodecs, respCodec: ProtoCodec<Resp>, reply: Result<Message, ComError>)
    : (r: Result<Resp, Tonic.Status>)
    requires reply.Ok? ==> reply.value.Readable()
    ensures reply.Err? ==> r == Err(Tonic.Status(Tonic.Internal, TransportFailure(reply.error)))
    ensures reply.Ok? && codecs.reply.decode(NewViewer(reply.value).header).Err? ==>
              r == Err(Tonic.Status(Tonic.Internal, codecs.reply.decode(NewViewer(reply.value).header).error.description))
    ensures reply.Ok? && codecs.reply.decode(NewViewer(reply.value).header).Ok? ==>
              var h := codecs.reply.decode(NewViewer(reply.value).header).value;
              && (h.statusCode != 0 ==> r == Err(Tonic.Status(Tonic.FromI32(h.statusCode), h.statusMessage)))
              && (h.statusCode == 0 && respCodec.decode(NewViewer(reply.value).body).Err? ==>
                    r == Err(Tonic.Status(Tonic.Internal, respCodec.decode(NewViewer(reply.value).body).error.description)))
              && (h.statusCode == 0 && respCodec.decode(NewViewer(reply.value).body).Ok? ==>
                    r == Ok(respCodec.decode(NewViewer(reply.value).body).value))
  {
    match reply
    case Err(e) => Err(Tonic.Status(Tonic.Internal, TransportFailure(e)))
    case Ok(message) =>
      var replyvw := NewViewer(message);
      match codecs.reply.decode(replyvw.header)
      case Err(err) => Err(Tonic.Status(Tonic.Internal, err.description))
      case Ok(replyHeader) =>
        var headerStatus := Tonic.Status(Tonic.FromI32(replyHeader.statusCode), replyHeader.statusMessage);
        if headerStatus.code != Tonic.Ok then Err(headerStatus)
        else
          match respCodec.decode(replyvw.body)
          case Err(err) => Err(Tonic.Status(Tonic.Internal, err.description))
          case Ok(out) => Ok(out)
  }

  /** `Client2::request`: send the framed request and interpret the reply. */
  function Request<Req, Resp>(client: Client2, codecs: HeaderCodecs, reqCodec: ProtoCodec<Req>, respCodec: ProtoCodec<Resp>,
                              url: string, msg: Req, timeout: u32): (r: Result<Resp, Tonic.Status>)
    requires codecs.request.encode(RequestHeader(url)).Ok?
    requires reqCodec.encode(msg).Ok?
    requires client.transport(timeout, Outgoing(codecs, reqCodec, url, msg)).Ok? ==>
               client.transport(timeout, Outgoing(codecs, reqCodec, url, msg)).value.Readable()
    ensures client.transport(timeout, Outgoing(codecs, reqCodec, url, msg)).Err? ==> r.Err? && r.error.code == Tonic.Internal
  {
    Interpret(codecs, respCodec, client.transport(timeout, Outgoing(codecs, reqCodec, url, msg)))
  }

  /** A non-Ok reply status is returned as it is, whatever the body and the body codec. */
  lemma StatusTakesPrecedence<Resp>(codecs: HeaderCodecs, respCodec: ProtoCodec<Resp>, otherCodec: ProtoCodec<Resp>,
                                    header: bytes, body: bytes, otherBody: bytes)
    requires codecs.reply.decode(CreateMessage(header, body).headerBuff.Slice()).Ok?
    requires codecs.reply.decode(CreateMessage(header, body).headerBuff.Slice()).value.statusCode != 0
    ensures var h := codecs.reply.decode(CreateMessage(header, body).headerBuff.Slice()).value;
            && Interpret(codecs, respCodec, Ok(CreateMessage(header, body)))
               == Interpret(codecs, otherCodec, Ok(CreateMessage(header, otherBody)))
            && Interpret(codecs, respCodec, Ok(CreateMessage(header, body)))
               == Err(Tonic.Status(Tonic.FromI32(h.statusCode), h.statusMessage))
  {
  }

  /**
   * The transport hands a readable request to a server whose services are as
   * in svcs, and returns the reply the server's worker completes it with.
   */
  ghost predicate DeliversTo<S>(transport: Transport, svcs: seq<Server.Service<S>>, codecs: HeaderCodecs)
    requires EncodesAll(codecs.reply)
  {
    forall timeout: u32, m: Message :: m.Readable() ==> transport(timeout, m) == Ok(Server.ServeStep(svcs, codecs, m).1)
  }

  /** What the caller of `request` sees for a given server result. */
  function Outcome<Resp>(payload: Result<bytes, Tonic.Status>, respCodec: ProtoCodec<Resp>): Result<Resp, Tonic.Status>
  {
    var body := if payload.Ok? then payload.value else [];
    if payload.Err? && payload.error.code != Tonic.Ok then Err(payload.error)
    else
      match respCodec.decode(body)
      case Err(err) => Err(Tonic.Status(Tonic.Internal, err.description))
      case Ok(out) => Ok(out)
  }

  /**
   * End to end: over a transport that delivers to the server, the client gets
   * the routed handler's bytes decoded, and a handler's error status unchanged.
   * An error carrying code Ok is framed as success with an empty body.
   */
  lemma {:induction false} RequestThroughServer<Req, Resp, S>(client: Client2, svcs: seq<Server.Service<S>>, codecs: HeaderCodecs,
                                              reqCodec: ProtoCodec<Req>, respCodec: ProtoCodec<Resp>,
                                              url: string, msg: Req, timeout: u32)
    requires RoundTrips(codecs.request) && RoundTrips(codecs.reply) && EncodesAll(codecs.reply)
    requires DeliversTo(client.transport, svcs, codecs)
    requires codecs.request.encode(RequestHeader(url)).Ok?
    requires reqCodec.encode(msg).Ok?
    requires Outgoing(codecs, reqCodec, url, msg).Fits()
    requires Server.ServeStep(svcs, codecs, Outgoing(codecs, reqCodec, url, msg)).1.Fits()
    ensures Request(client, codecs, reqCodec, respCodec, url, msg, timeout)
            == Outcome(Server.Route(svcs, url, reqCodec.encode(msg).value).1, respCodec)
  {
    var out := Outgoing(codecs, reqCodec, url, msg);
    var body := reqCodec.encode(msg).value;
    CreateViewRoundTrip(out.header, out.body);
    var vw := NewViewer(out);
    assert codecs.request.decode(vw.header) == Ok(RequestHeader(url));
    var payload := Server.Route(svcs, url, body).1;
    assert Server.Execute(svcs, codecs.request, vw) == Server.Route(svcs, url, body);
    var framed := Server.Frame(payload);
    var reply := Server.ServeStep(svcs, codecs, out).1;
    assert client.transport(timeout, out) == Ok(reply);
    assert reply == CreateMessage(codecs.reply.encode(framed.0).value, framed.1);
    CreateViewRoundTrip(reply.header, reply.body);
    assert codecs.reply.decode(NewViewer(reply).header) == Ok(framed.0);
    assert NewViewer(reply).body == framed.1;
    if payload.Err? {
      Tonic.CodeRoundTrip(payload.error.code);
    }
  }
}
