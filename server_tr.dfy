/**
 * The server-side handlers the native transport calls: the connection handler
 * (connect and disconnect complete at once) and the echo message handler.
 */
module ServerTransport {
  import opened Wrappers
  import opened Primitives
  import opened Sys

  /**
   * The completion callback the transport hands to a `Begin*` handler. Its
   * behaviour belongs to the transport; the model records the state of every
   * context it is invoked with.
   */
  class ProviderCallback {
    var invocations: seq<ContextState>

    constructor ()
      ensures invocations == []
    {
      invocations := [];
    }

    method Invoke(ctx: Context<ProviderCallback>)
      modifies this
      ensures invocations == old(invocations) + [ctx.State()]
    {
      invocations := invocations + [ctx.State()];
    }
  }

  type ServerContext = Context<ProviderCallback>

  /** The frame of a handler that may call the callback it was given. */
  function CallbackFrame(callback: Option<ProviderCallback>): set<object>
  {
    if callback.Some? then {callback.value} else {}
  }

  /**
   * The body shared by `BeginProcessConnect` and `BeginProcessDisconnect`:
   * a context completed at once, passed (as a clone) to the callback, and returned.
   */
  method BeginCompleted(callback: Option<ProviderCallback>) returns (r: Result<ServerContext, HRESULT>)
    modifies CallbackFrame(callback)
    ensures callback.None? ==> r == Err(E_POINTER)
    ensures callback.Some? ==>
              && r.Ok? && fresh(r.value)
              && r.value.State() == ContextState(true, None)
              && r.value.callback == callback.value
              && callback.value.invocations == old(callback.value.invocations) + [ContextState(true, None)]
  {
    if callback.Some? {
      var cb := callback.value;
      var ctx := new Context(cb);
      ctx.Complete();
      var copy := ctx.Clone();
      cb.Invoke(copy);
      r := Ok(ctx);
    } else {
      r := Err(E_POINTER);
    }
  }

  /** The body shared by `EndProcessConnect` and `EndProcessDisconnect`. */
  method EndCompleted(context: Option<ServerContext>) returns (r: Result<(), HRESULT>)
    requires context.Some? ==> context.value.completed
    ensures r == if context.None? then Err(E_POINTER) else Ok(())
  {
    if context.Some? {
      var cast := context.value;
      assert cast.IsCompleted();
      r := Ok(());
    } else {
      r := Err(E_POINTER);
    }
  }

  /** `BeginProcessConnect`: a null callback is E_POINTER; otherwise complete at once. */
  method BeginProcessConnect(callback: Option<ProviderCallback>) returns (r: Result<ServerContext, HRESULT>)
    modifies CallbackFrame(callback)
    ensures callback.None? ==> r == Err(E_POINTER)
    ensures callback.Some? ==>
              && r.Ok? && fresh(r.value)
              && r.value.State() == ContextState(true, None)
              && r.value.callback == callback.value
              && callback.value.invocations == old(callback.value.invocations) + [ContextState(true, None)]
  {
    r := BeginCompleted(callback);
  }

  /** `EndProcessConnect`: a null context is E_POINTER; the context must be completed. */
  method EndProcessConnect(context: Option<ServerContext>) returns (r: Result<(), HRESULT>)
    requires context.Some? ==> context.value.completed
    ensures context.None? <==> r == Err(E_POINTER)
    ensures context.Some? <==> r == Ok(())
  {
    r := EndCompleted(context);
  }

  /** `BeginProcessDisconnect`: as `BeginProcessConnect`. */
  method BeginProcessDisconnect(callback: Option<ProviderCallback>) returns (r: Result<ServerContext, HRESULT>)
    modifies CallbackFrame(callback)
    ensures callback.None? ==> r == Err(E_POINTER)
    ensures callback.Some? ==>
              && r.Ok? && fresh(r.value)
              && r.value.State() == ContextState(true, None)
              && r.value.callback == callback.value
              && callback.value.invocations == old(callback.value.invocations) + [ContextState(true, None)]
  {
    r := BeginCompleted(callback);
  }

  /** `EndProcessDisconnect`: as `EndProcessConnect`. */
  method EndProcessDisconnect(context: Option<ServerContext>) returns (r: Result<(), HRESULT>)
    requires context.Some? ==> context.value.completed
    ensures context.None? <==> r == Err(E_POINTER)
    ensures context.Some? <==> r == Ok(())
  {
    r := EndCompleted(context);
  }

  /** The bytes of "hello: ". */
  const Hello: bytes := [0x68, 0x65, 0x6C, 0x6C, 0x6F, 0x3A, 0x20]

  /** The echo reply to a request: "hello: " before the viewed header and before the viewed body. */
  function EchoReply(request: Message): (reply: Message)
    requires request.Readable()
    ensures reply.Readable()
    ensures reply.header == Hello + NewViewer(request).header
    ensures reply.body == Hello + NewViewer(request).body
  {
    var vw := NewViewer(request);
    CreateMessage(Hello + vw.header, Hello + vw.body)
  }

  /**
   * `BeginProcessRequest`: null message or callback is E_POINTER; otherwise the
   * echo reply is stored, the context completed, and the callback invoked with it.
   */
  method BeginProcessRequest(message: Option<Message>, callback: Option<ProviderCallback>)
    returns (r: Result<ServerContext, HRESULT>)
    requires message.Some? ==> message.value.Readable()
    modifies CallbackFrame(callback)
    ensures message.None? || callback.None? ==> r == Err(E_POINTER) && unchanged(CallbackFrame(callback))
    ensures message.Some? && callback.Some? ==>
              && r.Ok? && fresh(r.value)
              && r.value.State() == ContextState(true, Some(EchoReply(message.value)))
              && r.value.callback == callback.value
              && callback.value.invocations == old(callback.value.invocations) + [r.value.State()]
  {
    if message.None? || callback.None? {
      return Err(E_POINTER);
    }
    var msg := message.value;
    var cb := callback.value;
    var ctx := new Context(cb);
    var vw := NewViewer(msg);
    var replyHeader := Hello;
    replyHeader := replyHeader + vw.header;
    var replyBody := Hello;
    replyBody := replyBody + vw.body;
    var reply := CreateMessage(replyHeader, replyBody);
    ctx.SetMsg(reply);
    ctx.Complete();
    var copy := ctx.Clone();
    cb.Invoke(copy);
    r := Ok(ctx);
  }

  /** `EndProcessRequest`: a null context is E_POINTER; otherwise the stored message. */
  method EndProcessRequest(context: Option<ServerContext>) returns (r: Result<Message, HRESULT>)
    requires context.Some? ==> context.value.completed && context.value.msg.Some?
    ensures context.None? ==> r == Err(E_POINTER)
    ensures context.Some? ==> r == Ok(context.value.msg.value)
  {
    if context.None? {
      return Err(E_POINTER);
    }
    var cast := context.value;
    var msg := cast.GetMsg();
    r := Ok(msg.value);
  }

  /** `HandleOneWay`: always Ok, with no effect. */
  method HandleOneWay(message: Option<Message>) returns (r: Result<(), HRESULT>)
    ensures r == Ok(())
  {
    r := Ok(());
  }

  /**
   * How the transport drives a request: begin, then end with the returned
   * context. The end call yields exactly the reply the begin call stored.
   */
  method ProcessRequest(message: Message, callback: ProviderCallback) returns (r: Result<Message, HRESULT>)
    requires message.Readable()
    modifies callback
    ensures r == Ok(EchoReply(message))
    ensures callback.invocations == old(callback.invocations) + [ContextState(true, Some(EchoReply(message)))]
  {
    var begun := BeginProcessRequest(Some(message), Some(callback));
    r := EndProcessRequest(Some(begun.value));
  }

  /** The echo of src/tests.rs: for messages that fit, the viewed reply is "hello: " + header, "hello: " + body. */
  lemma EchoViewed(header: bytes, body: bytes)
    requires |header| + |Hello| < U32_LIMIT && |body| + |Hello| < U32_LIMIT
    ensures NewViewer(EchoReply(CreateMessage(header, body))).header == Hello + header
    ensures NewViewer(EchoReply(CreateMessage(header, body))).body == Hello + body
  {
    CreateViewRoundTrip(header, body);
    CreateViewRoundTrip(Hello + header, Hello + body);
  }
}
