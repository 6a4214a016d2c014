/**
 * The RPC server: service registration, URL routing by first prefix match,
 * reply framing, and the per-connection worker that answers requests in order.
 */
module Server {
  import opened Wrappers
  import opened Primitives
  import opened Proto
  import opened Sys
  import Tonic

  /**
   * A registered service: the URL prefix it answers to, the state it keeps
   * (the implementation object behind `&self`), and its request handler,
   * which may change that state.
   */
  datatype Service<!S> = Service(name: string, state: S, handle: (S, string, bytes) -> (S, Result<bytes, Tonic.Status>))

  /** `Server`: the services in registration order. */
  class Server<S> {
    var svcs: seq<Service<S>>

    /** `Server::default()`. */
    constructor ()
      ensures svcs == []
    {
      svcs := [];
    }

    /** `add_service`: appended after the services already registered. */
    method AddService(svc: Service<S>)
      modifies this
      ensures svcs == old(svcs) + [svc]
      ensures |svcs| == |old(svcs)| + 1 && svcs[..|old(svcs)|] == old(svcs)
    {
      svcs := svcs + [svc];
    }
  }

  /** j is the first service, in registration order, whose name is a prefix of path. */
  ghost predicate FirstMatch<S>(svcs: seq<Service<S>>, path: string, j: int)
  {
    && 0 <= j < |svcs|
    && svcs[j].name <= path
    && forall k :: 0 <= k < j ==> !(svcs[k].name <= path)
  }

  /** The search loop of `execute`, from index i on. */
  function FindFrom<S>(svcs: seq<Service<S>>, path: string, i: nat): (r: Option<nat>)
    requires i <= |svcs|
    decreases |svcs| - i
    ensures r.Some? ==> i <= r.value < |svcs| && svcs[r.value].name <= path
    ensures r.Some? ==> forall k :: i <= k < r.value ==> !(svcs[k].name <= path)
    ensures r.None? ==> forall k :: i <= k < |svcs| ==> !(svcs[k].name <= path)
  {
    if i == |svcs| then None
    else if svcs[i].name <= path then Some(i)
    else FindFrom(svcs, path, i + 1)
  }

  /** The first service whose name is a prefix of path, if any. */
  function FindService<S>(svcs: seq<Service<S>>, path: string): (r: Option<nat>)
    ensures r.Some? ==> FirstMatch(svcs, path, r.value)
    ensures r.None? <==> forall k :: 0 <= k < |svcs| ==> !(svcs[k].name <= path)
  {
    FindFrom(svcs, path, 0)
  }

  /** The URL starts with '/', the separator `execute` strips. */
  predicate ValidUrl(url: string)
  {
    url != [] && url[0] == '/'
  }

  const UrlNotValid: string := "url not valid"
  const UrlNotFound: string := "url not found"
  const HeaderInvalid: string := "header invalid, failed to parse"

  /** One call of a service's `handle_request`: the service with its new state, and the answer. */
  function Dispatch<S>(svc: Service<S>, url: string, body: bytes): (r: (Service<S>, Result<bytes, Tonic.Status>))
    ensures r.0 == svc.(state := svc.handle(svc.state, url, body).0)
    ensures r.1 == svc.handle(svc.state, url, body).1
  {
    var (after, answer) := svc.handle(svc.state, url, body);
    (svc.(state := after), answer)
  }

  /** The services keep their names and handlers; only states change. */
  ghost predicate SameRegistry<S>(svcs: seq<Service<S>>, other: seq<Service<S>>)
  {
    && |other| == |svcs|
    && forall k :: 0 <= k < |svcs| ==> other[k].name == svcs[k].name && other[k].handle == svcs[k].handle
  }

  /**
   * The part of `execute` after the header is decoded: validate the URL and
   * hand the full URL and the body to the first matching service. Only that
   * service's state can change.
   */
  function Route<S>(svcs: seq<Service<S>>, url: string, body: bytes): (r: (seq<Service<S>>, Result<bytes, Tonic.Status>))
    ensures !ValidUrl(url) ==> r == (svcs, Err(Tonic.Status(Tonic.InvalidArgument, UrlNotValid)))
    ensures ValidUrl(url) && (forall k :: 0 <= k < |svcs| ==> !(svcs[k].name <= url[1..])) ==>
              r == (svcs, Err(Tonic.Status(Tonic.Unimplemented, UrlNotFound)))
    ensures forall j :: ValidUrl(url) && FirstMatch(svcs, url[1..], j) ==>
              r == (svcs[j := Dispatch(svcs[j], url, body).0], Dispatch(svcs[j], url, body).1)
    ensures SameRegistry(svcs, r.0)
  {
    if !ValidUrl(url) then (svcs, Err(Tonic.Status(Tonic.InvalidArgument, UrlNotValid)))
    else
      match FindService(svcs, url[1..])
      case None => (svcs, Err(Tonic.Status(Tonic.Unimplemented, UrlNotFound)))
      case Some(j) =>
        assert forall i :: FirstMatch(svcs, url[1..], i) ==> i == j;
        var (svc, answer) := Dispatch(svcs[j], url, body);
        (svcs[j := svc], answer)
  }

  /** `ServerInner::execute`: decode the request header, then route. */
  function Execute<S>(svcs: seq<Service<S>>, codec: ProtoCodec<RequestHeader>, vw: MessageViewer)
    : (r: (seq<Service<S>>, Result<bytes, Tonic.Status>))
    ensures codec.decode(vw.header).Err? ==>
              r == (svcs, Err(Tonic.Status(Tonic.InvalidArgument, HeaderInvalid + codec.decode(vw.header).error.description)))
    ensures codec.decode(vw.header).Ok? ==> r == Route(svcs, codec.decode(vw.header).value.url, vw.body)
  {
    match codec.decode(vw.header)
    case Err(err) => (svcs, Err(Tonic.Status(Tonic.InvalidArgument, HeaderInvalid + err.description)))
    case Ok(header) => Route(svcs, header.url, vw.body)
  }

  /** A request header that does not decode is always answered InvalidArgument, and no state changes. */
  lemma UndecodableHeaderIsInvalidArgument<S>(svcs: seq<Service<S>>, codec: ProtoCodec<RequestHeader>, vw: MessageViewer)
    requires codec.decode(vw.header).Err?
    ensures Execute(svcs, codec, vw).0 == svcs
    ensures Execute(svcs, codec, vw).1.Err?
    ensures Execute(svcs, codec, vw).1.error.code == Tonic.InvalidArgument
    ensures Execute(svcs, codec, vw).1.error.message[..|HeaderInvalid|] == HeaderInvalid
  {
  }

  /** Reply framing in the worker: the reply header and body for an execute result. */
  function Frame(payload: Result<bytes, Tonic.Status>): (r: (ReplyHeader, bytes))
    ensures payload.Err? ==>
              r.0 == ReplyHeader(Tonic.ToI32(payload.error.code), payload.error.message) && r.1 == []
    ensures payload.Ok? ==> r.0 == ReplyHeader(Tonic.ToI32(Tonic.Ok), "Ok") && r.1 == payload.value
  {
    match payload
    case Err(st) => (DefaultReplyHeader.(statusCode := Tonic.ToI32(st.code), statusMessage := st.message), [])
    case Ok(content) => (DefaultReplyHeader.(statusCode := Tonic.ToI32(Tonic.Ok), statusMessage := "Ok"), content)
  }

  /** One round of the worker: the services after executing request, and the reply it completes the request with. */
  function ServeStep<S>(svcs: seq<Service<S>>, codecs: HeaderCodecs, request: Message): (r: (seq<Service<S>>, Message))
    requires request.Readable()
    requires EncodesAll(codecs.reply)
    ensures r.1.Readable()
    ensures SameRegistry(svcs, r.0)
  {
    var (after, payload) := Execute(svcs, codecs.request, NewViewer(request));
    var framed := Frame(payload);
    (after, CreateMessage(codecs.reply.encode(framed.0).value, framed.1))
  }

  /** Every message's buffers can be read. */
  predicate AllReadable(ms: seq<Message>)
  {
    forall i :: 0 <= i < |ms| ==> ms[i].Readable()
  }

  lemma PrefixReadable(ms: seq<Message>, n: nat)
    requires AllReadable(ms) && n <= |ms|
    ensures AllReadable(ms[..n])
  {
  }

  /** The services after the worker has executed the given requests, first to last. */
  function ServedAfter<S>(svcs: seq<Service<S>>, codecs: HeaderCodecs, requests: seq<Message>): (r: seq<Service<S>>)
    requires AllReadable(requests)
    requires EncodesAll(codecs.reply)
    ensures SameRegistry(svcs, r)
  {
    if requests == [] then svcs
    else
      PrefixReadable(requests, |requests| - 1);
      ServeStep(ServedAfter(svcs, codecs, requests[..|requests| - 1]), codecs, requests[|requests| - 1]).0
  }

  /** The last request is served on the services the earlier ones left. */
  lemma ServedAfterLast<S>(svcs: seq<Service<S>>, codecs: HeaderCodecs, requests: seq<Message>)
    requires AllReadable(requests) && requests != []
    requires EncodesAll(codecs.reply)
    ensures AllReadable(requests[..|requests| - 1])
    ensures ServedAfter(svcs, codecs, requests)
            == ServeStep(ServedAfter(svcs, codecs, requests[..|requests| - 1]), codecs, requests[|requests| - 1]).0
  {
    PrefixReadable(requests, |requests| - 1);
  }

  /** Serving two batches one after the other is serving them as one batch. */
  lemma {:induction false} ServedAfterAppend<S>(svcs: seq<Service<S>>, codecs: HeaderCodecs, first: seq<Message>, second: seq<Message>)
    requires AllReadable(first) && AllReadable(second)
    requires EncodesAll(codecs.reply)
    ensures AllReadable(first + second)
    ensures ServedAfter(svcs, codecs, first + second) == ServedAfter(ServedAfter(svcs, codecs, first), codecs, second)
  {
    var both := first + second;
    forall i | 0 <= i < |both|
      ensures both[i].Readable()
    {
      if i < |first| {
        assert both[i] == first[i];
      } else {
        assert both[i] == second[i - |first|];
      }
    }
    if second == [] {
      assert both == first;
    } else {
      var init := second[..|second| - 1];
      PrefixReadable(second, |second| - 1);
      assert both[..|both| - 1] == first + init;
      assert both[|both| - 1] == second[|second| - 1];
      PrefixReadable(both, |both| - 1);
      ServedAfterAppend(svcs, codecs, first, init);
      var mid := ServedAfter(svcs, codecs, first);
      var last := second[|second| - 1];
      ServedAfterLast(svcs, codecs, both);
      ServedAfterLast(mid, codecs, second);
      assert ServedAfter(svcs, codecs, both) == ServeStep(ServedAfter(svcs, codecs, first + init), codecs, last).0;
      assert ServedAfter(mid, codecs, second) == ServeStep(ServedAfter(mid, codecs, init), codecs, last).0;
    }
  }

  /** The reply to request i: computed on the services as requests 0..i-1 left them. */
  function ReplyTo<S>(svcs: seq<Service<S>>, codecs: HeaderCodecs, requests: seq<Message>, i: nat): (reply: Message)
    requires AllReadable(requests) && i < |requests|
    requires EncodesAll(codecs.reply)
    ensures reply.Readable()
  {
    PrefixReadable(requests, i);
    ServeStep(ServedAfter(svcs, codecs, requests[..i]), codecs, requests[i]).1
  }

  /** Serving request i after requests 0..i-1 gives ReplyTo's reply and the services of requests 0..i. */
  lemma NextRequest<S>(svcs: seq<Service<S>>, codecs: HeaderCodecs, requests: seq<Message>, i: nat)
    requires AllReadable(requests) && i < |requests|
    requires EncodesAll(codecs.reply)
    ensures AllReadable(requests[..i]) && AllReadable(requests[..i + 1])
    ensures ServeStep(ServedAfter(svcs, codecs, requests[..i]), codecs, requests[i])
            == (ServedAfter(svcs, codecs, requests[..i + 1]), ReplyTo(svcs, codecs, requests, i))
  {
    assert requests[..i + 1][..i] == requests[..i];
    PrefixReadable(requests, i);
    PrefixReadable(requests, i + 1);
    ServedAfterLast(svcs, codecs, requests[..i + 1]);
  }

  /**
   * One round of the worker's loop: execute the request on the services, put
   * the status (or "Ok") into the reply header, the payload into the body, and
   * build the reply message.
   */
  method Respond<S>(svcs: seq<Service<S>>, codecs: HeaderCodecs, request: Message)
    returns (after: seq<Service<S>>, reply: Message)
    requires request.Readable()
    requires EncodesAll(codecs.reply)
    ensures (after, reply) == ServeStep(svcs, codecs, request)
  {
    var vw := NewViewer(request);
    var (next, payload) := Execute(svcs, codecs.request, vw);
    var replyHeader := DefaultReplyHeader;
    var replyBody: bytes := [];
    match payload {
      case Err(st) =>
        replyHeader := replyHeader.(statusCode := Tonic.ToI32(st.code));
        replyHeader := replyHeader.(statusMessage := st.message);
      case Ok(content) =>
        replyHeader := replyHeader.(statusCode := Tonic.ToI32(Tonic.Ok));
        replyHeader := replyHeader.(statusMessage := "Ok");
        replyBody := content;
    }
    var headerBuff := EncodeProto(codecs.reply, replyHeader);
    reply := CreateMessage(headerBuff.value, replyBody);
    after := next;
  }

  /**
   * The per-connection worker: the dequeued requests are handled one at a
   * time, in order. Reply i is computed on the services as requests 0..i-1 left
   * them, and the services end as all the requests leave them.
   */
  method ServeConnection<S>(svcs: seq<Service<S>>, codecs: HeaderCodecs, requests: seq<Message>)
    returns (replies: seq<Message>, served: seq<Service<S>>)
    requires AllReadable(requests)
    requires EncodesAll(codecs.reply)
    ensures |replies| == |requests|
    ensures forall i :: 0 <= i < |requests| ==> replies[i] == ReplyTo(svcs, codecs, requests, i)
    ensures served == ServedAfter(svcs, codecs, requests)
  {
    replies := [];
    served := svcs;
    var i := 0;
    while i < |requests|
      invariant 0 <= i <= |requests|
      invariant |replies| == i
      invariant AllReadable(requests[..i]) && served == ServedAfter(svcs, codecs, requests[..i])
      invariant forall k :: 0 <= k < i ==> replies[k] == ReplyTo(svcs, codecs, requests, k)
    {
      NextRequest(svcs, codecs, requests, i);
      var after, reply := Respond(served, codecs, requests[i]);
      ghost var earlier := replies;
      replies := replies + [reply];
      forall k | 0 <= k < i + 1
        ensures replies[k] == ReplyTo(svcs, codecs, requests, k)
      {
        if k < i {
          assert replies[k] == earlier[k];
        }
      }
      served := after;
      i := i + 1;
    }
    assert requests[..i] == requests;
  }

  const ParseFailed: string := "failed to parse proto: "
  const EncodeFailed: string := "failed to encode proto: "

  /** `parse_proto`: a decode failure becomes InvalidArgument with a prefixed message. */
  function ParseProto<T>(codec: ProtoCodec<T>, buf: bytes): (r: Result<T, Tonic.Status>)
    ensures r.Ok? <==> codec.decode(buf).Ok?
    ensures r.Ok? ==> r.value == codec.decode(buf).value
    ensures r.Err? ==> r.error == Tonic.Status(Tonic.InvalidArgument, ParseFailed + codec.decode(buf).error.description)
  {
    match codec.decode(buf)
    case Err(err) => Err(Tonic.Status(Tonic.InvalidArgument, ParseFailed + err.description))
    case Ok(v) => Ok(v)
  }

  /** `encode_proto`: an encode failure becomes Internal with a prefixed message. */
  function EncodeProto<T>(codec: ProtoCodec<T>, proto: T): (r: Result<bytes, Tonic.Status>)
    ensures r.Ok? <==> codec.encode(proto).Ok?
    ensures r.Ok? ==> r.value == codec.encode(proto).value
    ensures r.Err? ==> r.error == Tonic.Status(Tonic.Internal, EncodeFailed + codec.encode(proto).error.description)
  {
    match codec.encode(proto)
    case Err(e) => Err(Tonic.Status(Tonic.Internal, EncodeFailed + e.description))
    case Ok(buf) => Ok(buf)
  }

  /** What encode_proto produces, parse_proto reads back. */
  lemma ParseEncoded<T(!new)>(codec: ProtoCodec<T>, proto: T)
    requires RoundTrips(codec)
    requires codec.encode(proto).Ok?
    ensures ParseProto(codec, EncodeProto(codec, proto).value) == Ok(proto)
  {
  }

  /**
   * Registering one more service never changes where an already routed URL
   * goes; an unrouted URL goes to the new service exactly when its name is a prefix.
   */
  lemma {:induction false} AddServiceKeepsRoutes<S>(svcs: seq<Service<S>>, svc: Service<S>, path: string)
    ensures FindService(svcs, path).Some? ==> FindService(svcs + [svc], path) == FindService(svcs, path)
    ensures FindService(svcs, path).None? ==>
              FindService(svcs + [svc], path) == if svc.name <= path then Some(|svcs|) else None
  {
    var more := svcs + [svc];
    assert forall k :: 0 <= k < |svcs| ==> more[k] == svcs[k];
    match FindService(svcs, path)
    case Some(j) =>
      FirstMatchUnique(more, path, j, FindService(more, path));
    case None =>
      if svc.name <= path {
        assert FirstMatch(more, path, |svcs|);
        FirstMatchUnique(more, path, |svcs|, FindService(more, path));
      }
  }

  /** Only one index is the first match. */
  lemma FirstMatchUnique<S>(svcs: seq<Service<S>>, path: string, i: int, r: Option<nat>)
    requires FirstMatch(svcs, path, i)
    requires r == FindService(svcs, path)
    ensures r == Some(i)
  {
  }
}
