/**
 * `SocketClient`: a WebSocket client that buffers outbound frames while the
 * socket is not OPEN, runs an application-level ping/pong heartbeat, fans
 * inbound messages out to subscribers and reconnects with capped exponential
 * backoff.
 *
 * Host timers appear as state: the heartbeat and heartbeat-timeout timeouts
 * are entries of `pendingTimeouts` (the host's table of armed timeouts, from
 * handle to delay), the reconnect timeouts are the delays in
 * `reconnectTimers`. A timer firing and a
 * socket event are methods the host calls.
 */
module ReconnectingClient {
  import opened Wrappers
  import opened Codec
  import opened Transport
  import opened OrderedSets
  import Backoff
  import RG = ReconnectGuard

  /** `heartbeatInterval`: the delay of the timeout that sends `ping`. */
  const HeartbeatInterval: nat := 5000
  /** `heartbeatTimeout`: the delay of the timeout that waits for `pong`. */
  const HeartbeatTimeout: nat := 10000

  /** What `setTimeout` returns. */
  type TimerHandle = nat

  /** A subscriber record; `id` stands for its object identity. */
  datatype Subscriber = Subscriber(id: nat, kind: string)

  /** The function `subscribe` returns, which deletes its subscriber. */
  datatype Disposer = Disposer(target: Subscriber)

  class SocketClient {
    const url: string
    const heartEnabled: bool
    /** `parseJSON`. */
    const decode: Frame -> Value
    /** `stringfyJSON`. */
    const encode: Value -> Frame

    var ws: Socket?
    var heartbeatTimer: Option<TimerHandle>
    var serverTimer: Option<TimerHandle>
    /** Heartbeat timeouts the host has armed and not yet run or cleared, with their delays. */
    var pendingTimeouts: map<TimerHandle, nat>
    /** The next handle `setTimeout` will hand out. */
    var nextHandle: TimerHandle
    var lockReconnect: bool
    var reconnectAttempts: nat
    /** Delays of reconnect timeouts armed and not yet run. */
    var reconnectTimers: seq<real>
    var subscriber: seq<Subscriber>
    /** The source's `watingMessages`. */
    var waitingMessages: seq<Frame>
    /** Every subscriber callback invoked, with the message it was given. */
    ghost var invoked: seq<(Subscriber, Value)>

    ghost function Guard(): RG.Guard
      reads this
    {
      RG.Guard(reconnectAttempts, lockReconnect, |reconnectTimers|)
    }

    /** The heartbeat timeout (the one that sends `ping`) is armed. */
    ghost predicate TickArmed()
      reads this
    {
      heartbeatTimer.Some? && heartbeatTimer.value in pendingTimeouts
    }

    /** The heartbeat-ack timeout (the one that forces a reconnect) is armed. */
    ghost predicate TimeoutArmed()
      reads this
    {
      serverTimer.Some? && serverTimer.value in pendingTimeouts
    }

    ghost predicate Valid()
      reads this
    {
      && RG.Valid(Guard())
      && NoDup(waitingMessages)
      && NoDup(subscriber)
      && (heartbeatTimer.Some? ==> heartbeatTimer.value < nextHandle)
      && (serverTimer.Some? ==> serverTimer.value < nextHandle)
      // no armed heartbeat timeout is lost by overwriting a field
      && (forall h :: h in pendingTimeouts ==> Some(h) == heartbeatTimer || Some(h) == serverTimer)
      // the heartbeat cycle is in one phase at a time
      && !(TickArmed() && TimeoutArmed())
    }

    /** There is a socket and it is OPEN. */
    ghost predicate IsOpen()
      reads this, ws
    {
      ws != null && ws.readyState == Open
    }

    /** A `reconnect()` call with the given jitter took place. */
    twostate predicate Rescheduled(jitter: real)
      reads this
    {
      && Guard() == RG.Request(old(Guard()))
      && reconnectTimers ==
           if |reconnectTimers| > |old(reconnectTimers)|
           then old(reconnectTimers) + [Backoff.ReconnectDelay(reconnectAttempts, jitter)]
           else old(reconnectTimers)
    }

    constructor (url: string, heartEnabled: bool, decode: Frame -> Value, encode: Value -> Frame)
      ensures Valid()
      ensures this.url == url && this.heartEnabled == heartEnabled
      ensures this.decode == decode && this.encode == encode
      ensures ws == null && heartbeatTimer == None && serverTimer == None && pendingTimeouts == map[]
      ensures Guard() == RG.Guard(0, false, 0)
      ensures subscriber == [] && waitingMessages == [] && invoked == []
    {
      this.url := url;
      this.heartEnabled := heartEnabled;
      this.decode := decode;
      this.encode := encode;
      ws := null;
      heartbeatTimer, serverTimer := None, None;
      pendingTimeouts, nextHandle := map[], 0;
      lockReconnect, reconnectAttempts, reconnectTimers := false, 0, [];
      subscriber, waitingMessages := [], [];
      invoked := [];
    }

    /** `readyState`: the socket's state, or undefined without a socket. */
    method ReadyState() returns (r: Option<ReadyState>)
      ensures r.Some? <==> ws != null
      ensures r == Some(Open) <==> IsOpen()
      ensures ws != null ==> r == Some(ws.readyState)
    {
      r := if ws == null then None else Some(ws.readyState);
    }

    /**
     * `connect()`: `accepted` says whether the host's WebSocket constructor
     * accepts the URL. When it throws, the error is only logged: the old
     * socket stays and no reconnect is scheduled. Neither branch touches the
     * attempt counter.
     */
    method Connect(accepted: bool)
      requires Valid()
      modifies this`ws
      ensures Valid()
      ensures accepted ==> fresh(ws) && ws.readyState == Connecting && ws.sent == []
      ensures !accepted ==> ws == old(ws)
    {
      if accepted {
        ws := new Socket();
      }
    }

    /** `reconnect()`: at most one pending timeout, capped exponential backoff. */
    method Reconnect(jitter: real)
      requires Valid()
      requires 0.0 <= jitter <= Backoff.JitterRange
      modifies this`lockReconnect, this`reconnectAttempts, this`reconnectTimers
      ensures Valid()
      ensures Rescheduled(jitter)
    {
      if reconnectAttempts >= RG.MaxReconnectAttempts {
        return;
      }
      if lockReconnect {
        return;
      }
      lockReconnect := true;
      reconnectAttempts := reconnectAttempts + 1;
      var delay := Backoff.ReconnectDelay(reconnectAttempts, jitter);
      reconnectTimers := reconnectTimers + [delay];
    }

    /** The reconnect timeout runs: release the lock, then `connect()`. */
    method FireReconnect(accepted: bool)
      requires Valid()
      requires reconnectTimers != []
      modifies this`lockReconnect, this`reconnectTimers, this`ws
      ensures Valid()
      ensures Guard() == RG.Step(old(Guard()), RG.TimerFired)
      ensures !lockReconnect && reconnectTimers == []
      ensures accepted ==> fresh(ws) && ws.readyState == Connecting && ws.sent == []
      ensures !accepted ==> ws == old(ws)
    {
      lockReconnect := false;
      reconnectTimers := reconnectTimers[1..];
      Connect(accepted);
    }

    /** `stopHeartbeat()`: clears both timeouts but leaves their handles in the fields. */
    method StopHeartbeat()
      requires Valid()
      modifies this`pendingTimeouts
      ensures Valid()
      ensures pendingTimeouts == map[]
      ensures !TickArmed() && !TimeoutArmed()
    {
      if heartbeatTimer.Some? {
        pendingTimeouts := pendingTimeouts - {heartbeatTimer.value};
      }
      if serverTimer.Some? {
        pendingTimeouts := pendingTimeouts - {serverTimer.value};
      }
    }

    /** `sendHeartbeat()`: restart the cycle with only the ping timeout armed. */
    method SendHeartbeat()
      requires Valid()
      modifies this`pendingTimeouts, this`heartbeatTimer, this`nextHandle
      ensures Valid()
      ensures TickArmed() && !TimeoutArmed()
      ensures heartbeatTimer == Some(old(nextHandle)) && nextHandle > old(nextHandle)
      ensures pendingTimeouts == map[heartbeatTimer.value := HeartbeatInterval]
    {
      StopHeartbeat();
      heartbeatTimer := Some(nextHandle);
      pendingTimeouts := pendingTimeouts[nextHandle := HeartbeatInterval];
      nextHandle := nextHandle + 1;
    }

    /**
     * `_send(data)`: transmit on an OPEN socket, otherwise add to the
     * waiting set (so a frame equal to one already waiting is kept once).
     */
    method Send(data: Frame)
      requires Valid()
      modifies this`waitingMessages, ws
      ensures Valid()
      ensures ws != null ==> ws.readyState == old(ws.readyState)
      ensures old(IsOpen()) ==> ws.sent == old(ws.sent) + [data] && waitingMessages == old(waitingMessages)
      ensures !old(IsOpen()) ==> waitingMessages == Add(old(waitingMessages), data)
      ensures !old(IsOpen()) && ws != null ==> ws.sent == old(ws.sent)
    {
      if ws == null || ws.readyState != Open {
        waitingMessages := Add(waitingMessages, data);
        return;
      }
      ws.Send(data);
    }

    /** `sendMessage(data)`: `_send` of the encoded value. */
    method SendMessage(data: Value)
      requires Valid()
      modifies this`waitingMessages, ws
      ensures Valid()
      ensures ws != null ==> ws.readyState == old(ws.readyState)
      ensures old(IsOpen()) ==> ws.sent == old(ws.sent) + [encode(data)] && waitingMessages == old(waitingMessages)
      ensures !old(IsOpen()) ==> waitingMessages == Add(old(waitingMessages), encode(data))
      ensures !old(IsOpen()) && ws != null ==> ws.sent == old(ws.sent)
    {
      Send(encode(data));
    }

    /**
     * The socket's `open` event. With the current socket OPEN, every waiting
     * frame is transmitted once, in insertion order. If the event comes from
     * a socket that has since been replaced and the current one is not OPEN,
     * the frames are re-added to the set they are already in and then
     * dropped with it.
     */
    method OnOpen()
      requires Valid()
      modifies this`pendingTimeouts, this`heartbeatTimer, this`nextHandle, this`reconnectAttempts
      modifies this`waitingMessages, ws
      ensures Valid()
      ensures Guard() == RG.Step(old(Guard()), RG.Opened)
      ensures reconnectAttempts == 0 && waitingMessages == []
      ensures old(IsOpen()) ==> ws.sent == old(ws.sent) + old(waitingMessages)
      ensures !old(IsOpen()) && ws != null ==> ws.sent == old(ws.sent)
      ensures ws != null ==> ws.readyState == old(ws.readyState)
      ensures heartEnabled ==> TickArmed() && !TimeoutArmed()
      ensures heartEnabled ==> heartbeatTimer == Some(old(nextHandle))
                               && pendingTimeouts == map[old(nextHandle) := HeartbeatInterval]
      ensures !heartEnabled ==> pendingTimeouts == old(pendingTimeouts) && heartbeatTimer == old(heartbeatTimer)
    {
      if heartEnabled {
        SendHeartbeat();
      }
      reconnectAttempts := 0;
      var pending := waitingMessages;
      var i := 0;
      while i < |pending|
        invariant 0 <= i <= |pending|
        invariant Valid()
        invariant waitingMessages == pending
        invariant ws != null ==> ws.readyState == old(ws.readyState)
        invariant old(IsOpen()) ==> ws.sent == old(ws.sent) + pending[..i]
        invariant !old(IsOpen()) && ws != null ==> ws.sent == old(ws.sent)
        invariant heartEnabled ==> TickArmed() && !TimeoutArmed()
        invariant heartEnabled ==> heartbeatTimer == Some(old(nextHandle))
                                   && pendingTimeouts == map[old(nextHandle) := HeartbeatInterval]
        invariant !heartEnabled ==> pendingTimeouts == old(pendingTimeouts) && heartbeatTimer == old(heartbeatTimer)
        invariant reconnectAttempts == 0
      {
        Send(pending[i]);
        assert pending[..i + 1] == pending[..i] + [pending[i]];
        i := i + 1;
      }
      assert pending[..i] == pending;
      waitingMessages := [];
    }

    /**
     * The socket's `message` event, at host time `now`: `ping` is answered
     * with one `pong`, `pong` restarts the heartbeat cycle, anything else
     * goes to every subscriber. A subscriber's `kind` is not consulted. A
     * frame that decodes to `null` makes the `event` lookup throw, so the
     * handler stops before doing anything.
     */
    method OnMessage(frame: Frame, now: int)
      requires Valid()
      modifies this`pendingTimeouts, this`heartbeatTimer, this`nextHandle
      modifies this`waitingMessages, this`invoked, ws
      ensures Valid()
      ensures ws != null ==> ws.readyState == old(ws.readyState)
      ensures decode(frame).Null? ==>
        && invoked == old(invoked)
        && pendingTimeouts == old(pendingTimeouts) && heartbeatTimer == old(heartbeatTimer)
        && nextHandle == old(nextHandle)
        && waitingMessages == old(waitingMessages)
        && (ws != null ==> ws.sent == old(ws.sent))
      ensures !decode(frame).Null? && EventOf(decode(frame)) == Some("ping") ==>
        && invoked == old(invoked)
        && pendingTimeouts == old(pendingTimeouts) && heartbeatTimer == old(heartbeatTimer)
        && (old(IsOpen()) ==> ws.sent == old(ws.sent) + [encode(HeartbeatMessage("pong", now))]
                              && waitingMessages == old(waitingMessages))
        && (!old(IsOpen()) ==> waitingMessages == Add(old(waitingMessages), encode(HeartbeatMessage("pong", now))))
        && (!old(IsOpen()) && ws != null ==> ws.sent == old(ws.sent))
      ensures !decode(frame).Null? && EventOf(decode(frame)) == Some("pong") ==>
        && invoked == old(invoked)
        && TickArmed() && !TimeoutArmed()
        && heartbeatTimer == Some(old(nextHandle))
        && pendingTimeouts == map[old(nextHandle) := HeartbeatInterval]
        && waitingMessages == old(waitingMessages)
        && (ws != null ==> ws.sent == old(ws.sent))
      ensures !decode(frame).Null? && EventOf(decode(frame)) != Some("ping") && EventOf(decode(frame)) != Some("pong") ==>
        && invoked == old(invoked) + Broadcast(subscriber, decode(frame))
        && pendingTimeouts == old(pendingTimeouts) && heartbeatTimer == old(heartbeatTimer)
        && waitingMessages == old(waitingMessages)
        && (ws != null ==> ws.sent == old(ws.sent))
    {
      var msg := decode(frame);
      if msg.Null? {
        return;
      }
      var event := EventOf(msg);
      if event == Some("ping") {
        SendMessage(HeartbeatMessage("pong", now));
      } else if event == Some("pong") {
        SendHeartbeat();
      } else {
        var subs := subscriber;
        var i := 0;
        while i < |subs|
          invariant 0 <= i <= |subs|
          invariant invoked == old(invoked) + Broadcast(subs[..i], msg)
          modifies this`invoked
        {
          assert subs[..i + 1][..i] == subs[..i];
          invoked := invoked + [(subs[i], msg)];
          i := i + 1;
        }
        assert subs[..i] == subs;
      }
    }

    /** The socket's `error` event: `reconnect()`. */
    method OnError(jitter: real)
      requires Valid()
      requires 0.0 <= jitter <= Backoff.JitterRange
      modifies this`lockReconnect, this`reconnectAttempts, this`reconnectTimers
      ensures Valid()
      ensures Rescheduled(jitter)
    {
      Reconnect(jitter);
    }

    /** The socket's `close` event: only logged, it does not reconnect. */
    method OnClose()
      requires Valid()
      ensures Valid()
      ensures Guard() == old(Guard())
    {
    }

    /** The heartbeat timeout runs at host time `now`: send `ping`, then arm the ack timeout. */
    method FireHeartbeat(now: int)
      requires Valid()
      requires TickArmed()
      modifies this`pendingTimeouts, this`serverTimer, this`nextHandle, this`waitingMessages, ws
      ensures Valid()
      ensures TimeoutArmed() && !TickArmed()
      ensures serverTimer == Some(old(nextHandle)) && heartbeatTimer == old(heartbeatTimer)
      ensures pendingTimeouts == map[old(nextHandle) := HeartbeatTimeout]
      ensures ws != null ==> ws.readyState == old(ws.readyState)
      ensures old(IsOpen()) ==> ws.sent == old(ws.sent) + [encode(HeartbeatMessage("ping", now))]
                                && waitingMessages == old(waitingMessages)
      ensures !old(IsOpen()) ==> waitingMessages == Add(old(waitingMessages), encode(HeartbeatMessage("ping", now)))
      ensures !old(IsOpen()) && ws != null ==> ws.sent == old(ws.sent)
    {
      pendingTimeouts := pendingTimeouts - {heartbeatTimer.value};
      assert pendingTimeouts.Keys == {};
      SendMessage(HeartbeatMessage("ping", now));
      serverTimer := Some(nextHandle);
      pendingTimeouts := pendingTimeouts[nextHandle := HeartbeatTimeout];
      nextHandle := nextHandle + 1;
    }

    /**
     * `close(rFlag)`: close the socket if there is one; with `rFlag`, keep
     * buffer, subscribers and heartbeat and go through `reconnect()`;
     * otherwise stop the heartbeat, empty buffer and subscribers and drop
     * the socket. A pending reconnect timeout is not cancelled.
     */
    method Close(rFlag: bool, jitter: real)
      requires Valid()
      requires 0.0 <= jitter <= Backoff.JitterRange
      modifies this`lockReconnect, this`reconnectAttempts, this`reconnectTimers
      modifies this`pendingTimeouts, this`waitingMessages, this`subscriber, this`ws, ws
      ensures Valid()
      ensures old(ws) != null ==> old(ws).readyState == AfterClose(old(ws.readyState))
                                  && old(ws).sent == old(ws.sent)
      ensures rFlag ==>
        && Rescheduled(jitter)
        && ws == old(ws) && waitingMessages == old(waitingMessages) && subscriber == old(subscriber)
        && pendingTimeouts == old(pendingTimeouts)
      ensures !rFlag ==>
        && Guard() == old(Guard()) && reconnectTimers == old(reconnectTimers)
        && ws == null && waitingMessages == [] && subscriber == []
        && !TickArmed() && !TimeoutArmed()
    {
      if ws != null {
        ws.Close();
      }
      if rFlag {
        Reconnect(jitter);
      } else {
        StopHeartbeat();
        waitingMessages := [];
        subscriber := [];
        ws := null;
      }
    }

    /** The ack timeout runs before a `pong`: `close(true)`. */
    method FireServerTimeout(jitter: real)
      requires Valid()
      requires TimeoutArmed()
      requires 0.0 <= jitter <= Backoff.JitterRange
      modifies this`lockReconnect, this`reconnectAttempts, this`reconnectTimers
      modifies this`pendingTimeouts, this`waitingMessages, this`subscriber, this`ws, ws
      ensures Valid()
      ensures !TickArmed() && !TimeoutArmed()
      ensures Rescheduled(jitter)
      ensures ws == old(ws) && waitingMessages == old(waitingMessages) && subscriber == old(subscriber)
      ensures ws != null ==> ws.readyState == AfterClose(old(ws.readyState)) && ws.sent == old(ws.sent)
    {
      pendingTimeouts := pendingTimeouts - {serverTimer.value};
      Close(true, jitter);
    }

    /** `subscribe(sub)`: returns the function that deletes exactly `sub`. */
    method Subscribe(sub: Subscriber) returns (d: Disposer)
      requires Valid()
      modifies this`subscriber
      ensures Valid()
      ensures subscriber == Add(old(subscriber), sub)
      ensures d.target == sub
    {
      subscriber := Add(subscriber, sub);
      d := Disposer(sub);
    }

    /** `unsubscribe(sub)`: true iff `sub` was registered. */
    method Unsubscribe(sub: Subscriber) returns (removed: bool)
      requires Valid()
      modifies this`subscriber
      ensures Valid()
      ensures removed <==> sub in old(subscriber)
      ensures subscriber == Delete(old(subscriber), sub)
      ensures sub !in subscriber
      ensures forall s :: s != sub ==> (s in subscriber <==> s in old(subscriber))
    {
      removed := sub in subscriber;
      subscriber := Delete(subscriber, sub);
    }

    /** Calling the function `subscribe` returned. */
    method Dispose(d: Disposer) returns (removed: bool)
      requires Valid()
      modifies this`subscriber
      ensures Valid()
      ensures removed <==> d.target in old(subscriber)
      ensures subscriber == Delete(old(subscriber), d.target)
    {
      removed := Unsubscribe(d.target);
    }
  }
  /**
   * Frames sent before the socket opens are held once each and go out, in
   * order, when it opens.
   */
  method BufferFlushScenario(decode: Frame -> Value, encode: Value -> Frame, a: Frame, b: Frame)
    requires a != b
  {
    var c := new SocketClient("ws://example.test", false, decode, encode);
    c.Send(a);
    c.Send(b);
    c.Send(a);
    assert c.waitingMessages == [a, b];
    c.Connect(true);
    var s := c.ws;
    c.Send(b);
    s.Establish();
    c.OnOpen();
    assert s.sent == [a, b];
    assert c.waitingMessages == [];
    c.Send(a);
    assert s.sent == [a, b, a];
  }

  /**
   * Two subscribers both receive a message; after one is removed through
   * the function `subscribe` returned, only the other does.
   */
  method SubscriberScenario(decode: Frame -> Value, encode: Value -> Frame, frame: Frame, s1: Subscriber, s2: Subscriber)
    requires s1 != s2
    requires !decode(frame).Null?
    requires EventOf(decode(frame)) != Some("ping") && EventOf(decode(frame)) != Some("pong")
  {
    var c := new SocketClient("ws://example.test", true, decode, encode);
    var d1 := c.Subscribe(s1);
    var d2 := c.Subscribe(s2);
    assert c.subscriber == [s1, s2];
    var m := decode(frame);
    assert Broadcast([s1, s2], m) == [(s1, m), (s2, m)];
    c.OnMessage(frame, 0);
    assert c.invoked == [(s1, m), (s2, m)];
    var removed := c.Dispose(d1);
    assert removed && c.subscriber == [s2];
    assert Broadcast([s2], m) == [(s2, m)];
    c.OnMessage(frame, 0);
    assert c.invoked == [(s1, m), (s2, m), (s2, m)];
  }

  /**
   * Heartbeat round trip: after `open`, the ping timeout sends `ping` and
   * arms the 10000 ms ack timeout; a `pong` disarms it, so it can no longer
   * force a reconnect, and arms a new 5000 ms ping timeout.
   */
  method HeartbeatScenario(decode: Frame -> Value, encode: Value -> Frame, pong: Frame)
    requires EventOf(decode(pong)) == Some("pong")
  {
    var c := new SocketClient("ws://example.test", true, decode, encode);
    c.Connect(true);
    var s := c.ws;
    s.Establish();
    c.OnOpen();
    assert c.TickArmed() && !c.TimeoutArmed();
    c.FireHeartbeat(5000);
    assert s.sent == [encode(HeartbeatMessage("ping", 5000))];
    assert c.pendingTimeouts == map[c.serverTimer.value := HeartbeatTimeout];
    c.OnMessage(pong, 5100);
    assert !c.TimeoutArmed() && c.TickArmed();
    assert c.pendingTimeouts == map[c.heartbeatTimer.value := HeartbeatInterval];
  }

  /** Without a `pong`, the ack timeout schedules exactly one reconnect. */
  method HeartbeatTimeoutScenario(decode: Frame -> Value, encode: Value -> Frame, jitter: real)
    requires 0.0 <= jitter <= 100.0
  {
    var c := new SocketClient("ws://example.test", true, decode, encode);
    c.Connect(true);
    c.ws.Establish();
    c.OnOpen();
    c.FireHeartbeat(5000);
    c.FireServerTimeout(jitter);
    assert c.reconnectTimers == [Backoff.ReconnectDelay(1, jitter)];
    assert c.lockReconnect && !c.TimeoutArmed();
    c.OnError(jitter);
    assert |c.reconnectTimers| == 1;
  }
  /**
   * Two peer `ping`s answered at different times while the socket is not
   * OPEN leave both `pong` frames waiting, in order, when the encoder keeps
   * distinct values apart (as `JSON.stringify` does for these records).
   */
  method PongQueueScenario(decode: Frame -> Value, encode: Value -> Frame, ping: Frame, t1: int, t2: int)
    requires EventOf(decode(ping)) == Some("ping")
    requires forall v, w :: encode(v) == encode(w) ==> v == w
    requires t1 != t2
  {
    HeartbeatsDiffer("pong", t1, t2);
    var c := new SocketClient("ws://example.test", false, decode, encode);
    c.OnMessage(ping, t1);
    c.OnMessage(ping, t2);
    assert c.waitingMessages == [encode(HeartbeatMessage("pong", t1)), encode(HeartbeatMessage("pong", t2))];
  }
}
