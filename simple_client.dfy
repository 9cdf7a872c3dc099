/**
 * `WebSocketClient`: a WebSocket client with a fixed-interval, bounded retry
 * on `close` events and constructor failures, a handler set, a `send` that
 * reports whether it transmitted, and optional host callbacks.
 */
module SimpleClient {
  import opened Wrappers
  import opened Codec
  import opened Transport
  import opened OrderedSets
  import RT = RetryGuard

  const DefaultMaxReconnectAttempts: int := 5
  const DefaultReconnectInterval: int := 3000

  /**
   * The constructor's `options`: the two numeric settings and which of the
   * callbacks `onOpen`, `onError`, `onClose`, `onMaxReconnect` are provided.
   */
  datatype Options = Options(
    maxReconnectAttempts: Option<int>,
    reconnectInterval: Option<int>,
    onOpen: bool,
    onError: bool,
    onClose: bool,
    onMaxReconnect: bool)

  /** A call of one of the optional callbacks. */
  datatype Notice = OpenNotice | ErrorNotice | CloseNotice | MaxReconnectNotice

  /** A message handler; `id` stands for its function identity. */
  datatype Handler = Handler(id: nat)

  /** The function `onMessage` returns, which deletes its handler. */
  datatype Disposer = Disposer(target: Handler)

  /** JavaScript's `option || fallback` on a number: a missing or zero option yields the fallback. */
  function OrDefault(option: Option<int>, fallback: int): (r: int)
    ensures option.Some? && option.value != 0 ==> r == option.value
    ensures option.None? || option.value == 0 ==> r == fallback
    ensures r == 0 ==> fallback == 0
  {
    if option.Some? && option.value != 0 then option.value else fallback
  }

  class WebSocketClient {
    const url: string
    const options: Options
    const maxReconnectAttempts: int
    const reconnectInterval: int
    /** `JSON.parse`, falling back to the raw frame. */
    const decode: Frame -> Value
    /** `JSON.stringify`. */
    const encode: Value -> Frame

    var socket: Socket?
    var reconnectAttempts: nat
    /** Delays of `connect()` timeouts armed and not yet run. */
    var pendingConnects: seq<int>
    var messageHandlers: seq<Handler>
    /** Every optional callback invoked, in order. */
    ghost var notices: seq<Notice>
    /** Every handler invoked, with the message it was given. */
    ghost var handled: seq<(Handler, Value)>

    ghost function Retry(): RT.Retry
      reads this
    {
      RT.Retry(reconnectAttempts, |pendingConnects|)
    }

    ghost predicate Valid()
      reads this
    {
      && RT.Valid(Retry(), maxReconnectAttempts)
      && NoDup(messageHandlers)
      && (forall k :: 0 <= k < |pendingConnects| ==> pendingConnects[k] == reconnectInterval)
    }

    /** There is a socket and it is OPEN. */
    ghost predicate IsOpen()
      reads this, socket
    {
      socket != null && socket.readyState == Open
    }

    /** A `_handleReconnect()` call took place. */
    twostate predicate Reconnected()
      reads this
    {
      && Retry() == RT.Request(old(Retry()), maxReconnectAttempts)
      && notices ==
           if old(reconnectAttempts) >= maxReconnectAttempts && options.onMaxReconnect
           then old(notices) + [MaxReconnectNotice]
           else old(notices)
    }

    /** What `send` puts on the wire: a string as it is, anything else stringified. */
    function Outgoing(data: Value): Frame
    {
      if data.Str? then data.text else encode(data)
    }

    constructor (url: string, options: Options, decode: Frame -> Value, encode: Value -> Frame)
      ensures Valid()
      ensures this.url == url && this.options == options
      ensures this.decode == decode && this.encode == encode
      ensures maxReconnectAttempts == OrDefault(options.maxReconnectAttempts, DefaultMaxReconnectAttempts)
      ensures reconnectInterval == OrDefault(options.reconnectInterval, DefaultReconnectInterval)
      ensures socket == null && Retry() == RT.Retry(0, 0)
      ensures messageHandlers == [] && notices == [] && handled == []
    {
      this.url := url;
      this.options := options;
      this.decode := decode;
      this.encode := encode;
      maxReconnectAttempts := OrDefault(options.maxReconnectAttempts, DefaultMaxReconnectAttempts);
      reconnectInterval := OrDefault(options.reconnectInterval, DefaultReconnectInterval);
      socket := null;
      reconnectAttempts, pendingConnects := 0, [];
      messageHandlers := [];
      notices, handled := [], [];
    }

    /**
     * `_handleReconnect()`: while attempts remain, count one and arm one
     * `connect()` after `reconnectInterval`; otherwise call `onMaxReconnect`
     * if it was provided.
     */
    method HandleReconnect()
      requires Valid()
      modifies this`reconnectAttempts, this`pendingConnects, this`notices
      ensures Valid()
      ensures Reconnected()
      ensures |pendingConnects| > |old(pendingConnects)| ==>
        pendingConnects == old(pendingConnects) + [reconnectInterval]
      ensures |pendingConnects| == |old(pendingConnects)| ==> pendingConnects == old(pendingConnects)
    {
      if reconnectAttempts < maxReconnectAttempts {
        reconnectAttempts := reconnectAttempts + 1;
        pendingConnects := pendingConnects + [reconnectInterval];
      } else if options.onMaxReconnect {
        notices := notices + [MaxReconnectNotice];
      }
    }

    /**
     * `connect()`: `accepted` says whether the host's WebSocket constructor
     * accepts the URL; when it throws, the old socket stays and
     * `_handleReconnect()` runs.
     */
    method Connect(accepted: bool)
      requires Valid()
      modifies this`socket, this`reconnectAttempts, this`pendingConnects, this`notices
      ensures Valid()
      ensures accepted ==>
        && fresh(socket) && socket.readyState == Connecting && socket.sent == []
        && Retry() == old(Retry()) && pendingConnects == old(pendingConnects) && notices == old(notices)
      ensures !accepted ==>
        && socket == old(socket)
        && Retry() == RT.Step(old(Retry()), RT.ConstructFailed, maxReconnectAttempts)
        && Reconnected()
    {
      if accepted {
        socket := new Socket();
      } else {
        HandleReconnect();
      }
    }

    /** A pending `connect()` timeout runs. */
    method FireConnect(accepted: bool)
      requires Valid()
      requires pendingConnects != []
      modifies this`socket, this`reconnectAttempts, this`pendingConnects, this`notices
      ensures Valid()
      ensures accepted ==>
        && fresh(socket) && socket.readyState == Connecting && socket.sent == []
        && Retry() == RT.Step(old(Retry()), RT.TimerFired, maxReconnectAttempts)
        && notices == old(notices)
      ensures !accepted ==>
        && socket == old(socket)
        && Retry() == RT.Step(RT.Step(old(Retry()), RT.TimerFired, maxReconnectAttempts),
                              RT.ConstructFailed, maxReconnectAttempts)
        && notices == if old(reconnectAttempts) >= maxReconnectAttempts && options.onMaxReconnect
                      then old(notices) + [MaxReconnectNotice]
                      else old(notices)
    {
      pendingConnects := pendingConnects[1..];
      Connect(accepted);
    }

    /** The socket's `open` event: the `onOpen` callback if provided, then reset the counter. */
    method OnOpenEvent()
      requires Valid()
      modifies this`reconnectAttempts, this`notices
      ensures Valid()
      ensures Retry() == RT.Step(old(Retry()), RT.Opened, maxReconnectAttempts)
      ensures reconnectAttempts == 0
      ensures notices == if options.onOpen then old(notices) + [OpenNotice] else old(notices)
    {
      if options.onOpen {
        notices := notices + [OpenNotice];
      }
      reconnectAttempts := 0;
    }

    /** The socket's `message` event: decode, then call every handler. */
    method OnMessageEvent(frame: Frame)
      requires Valid()
      modifies this`handled
      ensures Valid()
      ensures handled == old(handled) + Broadcast(messageHandlers, decode(frame))
    {
      var data := decode(frame);
      var hs := messageHandlers;
      var i := 0;
      while i < |hs|
        invariant 0 <= i <= |hs|
        invariant handled == old(handled) + Broadcast(hs[..i], data)
      {
        assert hs[..i + 1][..i] == hs[..i];
        handled := handled + [(hs[i], data)];
        i := i + 1;
      }
      assert hs[..i] == hs;
    }

    /** The socket's `error` event: the `onError` callback if provided, and no reconnect. */
    method OnErrorEvent()
      requires Valid()
      modifies this`notices
      ensures Valid()
      ensures Retry() == RT.Step(old(Retry()), RT.Errored, maxReconnectAttempts)
      ensures pendingConnects == old(pendingConnects)
      ensures notices == if options.onError then old(notices) + [ErrorNotice] else old(notices)
    {
      if options.onError {
        notices := notices + [ErrorNotice];
      }
    }

    /** The socket's `close` event: the `onClose` callback if provided, then `_handleReconnect()`. */
    method OnCloseEvent()
      requires Valid()
      modifies this`reconnectAttempts, this`pendingConnects, this`notices
      ensures Valid()
      ensures Retry() == RT.Step(old(Retry()), RT.Closed, maxReconnectAttempts)
      ensures |pendingConnects| > |old(pendingConnects)| ==>
        pendingConnects == old(pendingConnects) + [reconnectInterval]
      ensures var afterHook := if options.onClose then old(notices) + [CloseNotice] else old(notices);
        notices == if old(reconnectAttempts) >= maxReconnectAttempts && options.onMaxReconnect
                   then afterHook + [MaxReconnectNotice]
                   else afterHook
    {
      if options.onClose {
        notices := notices + [CloseNotice];
      }
      HandleReconnect();
    }

    /**
     * `send(data)`: transmits one frame and answers true exactly when a
     * socket exists and is OPEN; otherwise answers false and keeps nothing.
     */
    method Send(data: Value) returns (ok: bool)
      requires Valid()
      modifies socket
      ensures Valid()
      ensures ok <==> old(IsOpen())
      ensures socket != null ==> socket.readyState == old(socket.readyState)
      ensures ok ==> socket.sent == old(socket.sent) + [Outgoing(data)]
      ensures !ok && socket != null ==> socket.sent == old(socket.sent)
    {
      if socket != null && socket.readyState == Open {
        socket.Send(Outgoing(data));
        return true;
      }
      return false;
    }

    /** `onMessage(handler)`: returns the function that deletes exactly `handler`. */
    method OnMessage(handler: Handler) returns (d: Disposer)
      requires Valid()
      modifies this`messageHandlers
      ensures Valid()
      ensures messageHandlers == Add(old(messageHandlers), handler)
      ensures d.target == handler
    {
      messageHandlers := Add(messageHandlers, handler);
      d := Disposer(handler);
    }

    /** Calling the function `onMessage` returned. */
    method Dispose(d: Disposer) returns (removed: bool)
      requires Valid()
      modifies this`messageHandlers
      ensures Valid()
      ensures removed <==> d.target in old(messageHandlers)
      ensures messageHandlers == Delete(old(messageHandlers), d.target)
      ensures forall h :: h != d.target ==> (h in messageHandlers <==> h in old(messageHandlers))
    {
      removed := d.target in messageHandlers;
      messageHandlers := Delete(messageHandlers, d.target);
    }

    /** `close()`: close and forget the socket; a no-op without one. */
    method Close()
      requires Valid()
      modifies this`socket, socket
      ensures Valid()
      ensures socket == null
      ensures old(socket) != null ==> old(socket).readyState == AfterClose(old(socket.readyState))
                                      && old(socket).sent == old(socket.sent)
    {
      if socket != null {
        socket.Close();
        socket := null;
      }
    }
  }
  /**
   * `send` answers true only while the socket is OPEN; `close()` detaches
   * nothing, so the socket's later `close` event still arms a reconnect.
   */
  method CloseThenReconnectScenario(decode: Frame -> Value, encode: Value -> Frame)
  {
    var c := new WebSocketClient("ws://example.test", Options(None, None, false, false, false, true), decode, encode);
    var ok := c.Send(Str("early"));
    assert !ok;
    c.Connect(true);
    var s := c.socket;
    s.Establish();
    c.OnOpenEvent();
    ok := c.Send(Str("hi"));
    assert ok && s.sent == ["hi"];
    c.Close();
    ok := c.Send(Str("late"));
    assert !ok && s.sent == ["hi"];
    s.Drop();
    c.OnCloseEvent();
    assert c.pendingConnects == [DefaultReconnectInterval] && c.reconnectAttempts == 1;
  }
}
