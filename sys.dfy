/**
 * The low-level constructs that bridge the native transport's begin/end
 * protocol: the message envelope and its viewer, the one-shot awaitable
 * callback, and the operation context handed back to the transport.
 */
module Sys {
  import opened Wrappers
  import opened Primitives

  /** FABRIC_TRANSPORT_MESSAGE_BUFFER: a size and the bytes its pointer addresses. */
  datatype MessageBuffer = MessageBuffer(size: u32, data: bytes) {
    /** Reading `size` bytes from the pointer stays inside the addressed bytes. */
    predicate Readable() {
      size as int <= |data|
    }

    /** `slice::from_raw_parts(Buffer, BufferSize)`. */
    function Slice(): (s: bytes)
      requires Readable()
      ensures |s| == size as int && s <= data
    {
      data[..size]
    }
  }

  /** The envelope: the header and body vectors and the two buffers describing them. */
  datatype Message = Message(header: bytes, body: bytes, headerBuff: MessageBuffer, bodyBuff: MessageBuffer) {
    predicate Readable() {
      headerBuff.Readable() && bodyBuff.Readable()
    }

    /** Both vectors are short enough for their length to fit a buffer's u32 size. */
    predicate Fits() {
      |header| < U32_LIMIT && |body| < U32_LIMIT
    }
  }

  /** `Message::create`: each buffer points at its vector and records its length as a u32. */
  function CreateMessage(header: bytes, body: bytes): (m: Message)
    ensures m.Readable()
    ensures m.header == header && m.body == body
    ensures m.headerBuff.data == header && m.bodyBuff.data == body
    ensures |header| < U32_LIMIT ==> m.headerBuff.size as int == |header|
    ensures |body| < U32_LIMIT ==> m.bodyBuff.size as int == |body|
  {
    Message(header, body, MessageBuffer(TruncateU32(|header|), header), MessageBuffer(TruncateU32(|body|), body))
  }

  /** An out-pointer argument: null, or a location holding its current value. */
  datatype Out<T> = Null | Slot(value: T)

  /**
   * `GetHeaderAndBodyBuffer`: the new values of the three out-locations. The
   * inner `Option` is the pointer stored there (None for a null pointer).
   */
  function GetHeaderAndBodyBuffer(m: Message, headerOut: Out<Option<MessageBuffer>>, countOut: Out<u32>,
                                  bodyOut: Out<Option<MessageBuffer>>)
    : (r: (Out<Option<MessageBuffer>>, Out<u32>, Out<Option<MessageBuffer>>))
    ensures headerOut.Null? || countOut.Null? || bodyOut.Null? ==> r == (headerOut, countOut, bodyOut)
    ensures headerOut.Slot? && countOut.Slot? && bodyOut.Slot? ==>
              r.0 == Slot(Some(m.headerBuff)) && r.1 == Slot(1) && r.2 == Slot(Some(m.bodyBuff))
  {
    if headerOut.Null? || countOut.Null? || bodyOut.Null? then (headerOut, countOut, bodyOut)
    else (Slot(Some(m.headerBuff)), Slot(1), Slot(Some(m.bodyBuff)))
  }

  /** `MessageViewer`: the message it keeps alive and the two slices it exposes. */
  datatype MessageViewer = MessageViewer(msg: Message, header: bytes, body: bytes)

  /** The slices a viewer takes from the pointers and the count it read back. */
  function ReadBuffers(headerBuff: Option<MessageBuffer>, count: u32, bodyBuff: Option<MessageBuffer>): (r: (bytes, bytes))
    requires headerBuff.Some? ==> headerBuff.value.Readable()
    requires count != 0 && bodyBuff.Some? ==> bodyBuff.value.Readable()
    ensures headerBuff.None? ==> r.0 == []
    ensures headerBuff.Some? ==> r.0 == headerBuff.value.data[..headerBuff.value.size]
    ensures count == 0 || bodyBuff.None? ==> r.1 == []
    ensures count != 0 && bodyBuff.Some? ==> r.1 == bodyBuff.value.data[..bodyBuff.value.size]
  {
    var header := if headerBuff.Some? then headerBuff.value.Slice() else [];
    var body := if count != 0 && bodyBuff.Some? then bodyBuff.value.Slice() else [];
    (header, body)
  }

  /** `MessageViewer::new`: ask the message for its buffers through fresh locations, then slice them. */
  function NewViewer(msg: Message): (vw: MessageViewer)
    requires msg.Readable()
    ensures vw.msg == msg
    ensures vw.header == msg.headerBuff.data[..msg.headerBuff.size]
    ensures vw.body == msg.bodyBuff.data[..msg.bodyBuff.size]
  {
    var got := GetHeaderAndBodyBuffer(msg, Slot(None), Slot(0), Slot(None));
    var slices := ReadBuffers(got.0.value, got.1.value, got.2.value);
    MessageViewer(msg, slices.0, slices.1)
  }

  /** Viewing a created message gives back its vectors, cut to the u32 lengths recorded. */
  lemma ViewOfCreated(header: bytes, body: bytes)
    ensures NewViewer(CreateMessage(header, body)).header == header[..|header| % U32_LIMIT]
    ensures NewViewer(CreateMessage(header, body)).body == body[..|body| % U32_LIMIT]
  {
  }

  /** Create then view is the identity on vectors whose lengths fit in a u32. */
  lemma CreateViewRoundTrip(header: bytes, body: bytes)
    requires |header| < U32_LIMIT && |body| < U32_LIMIT
    ensures CreateMessage(header, body).Fits()
    ensures NewViewer(CreateMessage(header, body)).header == header
    ensures NewViewer(CreateMessage(header, body)).body == body
  {
    ViewOfCreated(header, body);
    assert header[..|header| % U32_LIMIT] == header;
    assert body[..|body| % U32_LIMIT] == body;
  }

  /** The receiving half of a oneshot channel: how many values were sent into it. */
  class Receiver {
    var received: nat

    constructor ()
      ensures received == 0
    {
      received := 0;
    }
  }

  /**
   * `AwaitableCallback`: the transport's completion callback, holding the
   * sending half of a oneshot channel until the first `Invoke` takes it.
   * The sender is identified with the receiver it feeds.
   */
  class AwaitableCallback {
    var tx: Option<Receiver>
    const rx: Receiver

    /** Until the sender is taken nothing was sent; afterwards exactly one signal was. */
    ghost predicate Valid()
      reads this, rx
    {
      && (tx.Some? ==> tx.value == rx && rx.received == 0)
      && (tx.None? ==> rx.received == 1)
    }

    constructor (rx: Receiver)
      requires rx.received == 0
      ensures Valid() && this.rx == rx && tx == Some(rx) && rx.received == 0
    {
      this.rx := rx;
      tx := Some(rx);
    }

    /** `AwaitableCallback::create`: a fresh callback and the receiver it signals. */
    static method Create() returns (callback: AwaitableCallback, rx: Receiver)
      ensures fresh(callback) && fresh(rx)
      ensures callback.Valid() && callback.rx == rx && callback.tx == Some(rx) && rx.received == 0
    {
      rx := new Receiver();
      callback := new AwaitableCallback(rx);
    }

    /** `Invoke`: the first call sends one signal; every later call does nothing. */
    method Invoke()
      requires Valid()
      modifies this, rx
      ensures Valid() && tx.None? && rx.received == 1
      ensures old(tx).Some? ==> rx.received == old(rx.received) + 1
      ensures old(tx).None? ==> rx.received == old(rx.received)
    {
      var op := tx;
      tx := None;
      if op.Some? {
        var send := op.value;
        send.received := send.received + 1;
      }
    }
  }

  /** The observable state of an operation context. */
  datatype ContextState = ContextState(completed: bool, msg: Option<Message>)

  /** `Context`: completion flag and optional reply, for a callback of kind C. */
  class Context<C> {
    var completed: bool
    var msg: Option<Message>
    const callback: C

    function State(): (s: ContextState)
      reads this
      ensures s.completed == completed && s.msg == msg
    {
      ContextState(completed, msg)
    }

    /** `Context::new`: not completed, no message. */
    constructor (callback: C)
      ensures !completed && msg == None && this.callback == callback
    {
      completed := false;
      msg := None;
      this.callback := callback;
    }

    /** `complete`: allowed once; the message is left as it was. */
    method Complete()
      requires !completed
      modifies this
      ensures completed && msg == old(msg)
    {
      completed := true;
    }

    /** `set_msg`: allowed once, and only before completion. */
    method SetMsg(m: Message)
      requires msg == None && !completed
      modifies this
      ensures msg == Some(m) && completed == old(completed)
    {
      msg := Some(m);
    }

    /** `get_msg`: only after completion; returns the stored message and changes nothing. */
    method GetMsg() returns (r: Option<Message>)
      requires completed
      ensures r == msg
    {
      r := msg;
    }

    /** `IsCompleted`: the completion flag. */
    function IsCompleted(): (b: bool)
      reads this
      ensures b <==> completed
    {
      completed
    }

    /** `CompletedSynchronously`: never. */
    function CompletedSynchronously(): (b: bool)
      ensures !b
    {
      false
    }

    /** `Callback`: the callback the context was made with. */
    function Callback(): (r: Result<C, HRESULT>)
      ensures r == Ok(callback)
    {
      Ok(callback)
    }

    /** `Cancel`: unsupported, and always succeeds. */
    function Cancel(): (r: Result<(), HRESULT>)
      ensures r.Ok?
    {
      Ok(())
    }

    /** `clone()`: a new context with the same state and callback. */
    method Clone() returns (c: Context<C>)
      ensures fresh(c) && c.State() == State() && c.callback == callback
    {
      c := new Context(callback);
      c.completed := completed;
      c.msg := msg;
    }
  }
}
