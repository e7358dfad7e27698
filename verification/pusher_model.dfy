/**
 * The push-notification client of src/uploadFile/pusher.ts, as a state
 * machine over values.
 *
 * Every field of the `Pusher` object is a field of `State`. Two things the
 * object only reaches through collaborators are made explicit:
 *  - the WebSocket is an append-only log `wire` of what the client asked the
 *    sockets to do (open, transmit a control message, close);
 *  - the `Events` emitter is a map from event name to the handlers registered
 *    for it, and running a handler appends to the log `delivered`.
 * Each operation of the class is a function from the old state to the new
 * one; the class in module PusherClient is proved against these functions.
 */
module PusherModel {
  import opened Common

  /** Identity of one WebSocket created by `connect`. */
  type SocketId = nat

  /** The three task statuses a status record can carry. */
  datatype Status = Progress | Success | Error

  /** Scalar JSON values of a status record. */
  datatype Value = StatusValue(status: Status) | Text(text: string) | Number(number: int) | Flag(flag: bool)

  /** A flat JSON object, as parsed from a push message. */
  type Record = map<string, Value>

  /** An outgoing control message `{ event, data: { channel } }`. */
  datatype Message = Message(event: string, channel: string)

  /** One request made to a socket. */
  datatype SocketOp = Open(socket: SocketId) | Transmit(socket: SocketId, message: Message) | Close(socket: SocketId)

  /** What an emitted event carries: nothing (`connected`), a status record, or an error message. */
  datatype Payload = NoPayload | StatusPayload(record: Record) | ErrorPayload(message: string)

  /**
   * A handler registered on the emitter: a subscriber's status callback, the
   * `connected` listener installed by `connect`, or the self-removing wrapper
   * that `error(callback)` installs (its `key` is the identity of that closure).
   */
  datatype Handler = StatusHandler(callback: nat) | ConnectedListener | OnceErrorHandler(key: nat, callback: nat)

  /** One invocation of a user callback with the payload it received. */
  datatype Delivery = Delivery(callback: nat, payload: Payload)

  /** An incoming socket message, already parsed: `{ event, channel, data }`. */
  datatype Incoming = Incoming(event: string, channel: string, data: Record)

  /** What the `message` listener does with an incoming event. */
  datatype Reaction = EmitConnected | EmitStatus | Ignore

  type Emitter = map<string, seq<Handler>>

  datatype State = State(
    ws: Option<SocketId>,
    queue: seq<Message>,
    isConnected: bool,
    subscribers: int,
    emitter: Emitter,
    wire: seq<SocketOp>,
    delivered: seq<Delivery>,
    nextSocket: nat,
    nextKey: nat)

  /** A freshly constructed `Pusher`. */
  const Initial: State := State(None, [], false, 0, map[], [], [], 0, 0)

  // ---------------------------------------------------------------------------
  // Status records and incoming events
  // ---------------------------------------------------------------------------

  /** The status a push event type stands for. */
  function StatusOf(kind: string): (st: Status)
    ensures st == Status.Success <==> kind == "success"
    ensures st == Status.Progress <==> kind == "progress"
    ensures st == Status.Error <==> kind != "success" && kind != "progress"
  {
    if kind == "success" then Status.Success
    else if kind == "progress" then Status.Progress
    else Status.Error
  }

  /**
   * `response(type, data)`: the record `{ status, ...data }`. Because the
   * payload is spread after `status`, a payload that carries its own `status`
   * key keeps it.
   */
  function Response(kind: string, data: Record): (r: Record)
    ensures r.Keys == data.Keys + {"status"}
    ensures forall k :: k in data ==> r[k] == data[k]
    ensures "status" !in data ==> r["status"] == StatusValue(StatusOf(kind))
  {
    map["status" := StatusValue(StatusOf(kind))] + data
  }

  /** The `switch (data.event)` of the socket's `message` listener. */
  function Classify(event: string): (r: Reaction)
    ensures r == EmitConnected <==> event == "pusher:connection_established"
    ensures r == EmitStatus <==> event == "progress" || event == "success" || event == "fail"
    ensures r == Ignore <==>
      event != "pusher:connection_established" && event != "progress" && event != "success" && event != "fail"
  {
    match event
    case "pusher:connection_established" => EmitConnected
    case "progress" => EmitStatus
    case "success" => EmitStatus
    case "fail" => EmitStatus
    case _ => Ignore
  }

  // ---------------------------------------------------------------------------
  // Channels and control messages
  // ---------------------------------------------------------------------------

  /** The push channel of an import token. */
  function ChannelOf(token: string): (c: string)
    ensures |c| == 12 + |token| && c[..12] == "task-status-" && c[12..] == token
    ensures c != "connected" && c != "error"
  {
    "task-status-" + token
  }

  function SubscribeMessage(token: string): Message {
    Message("pusher:subscribe", ChannelOf(token))
  }

  function UnsubscribeMessage(token: string): Message {
    Message("pusher:unsubscribe", ChannelOf(token))
  }

  /** `queue.filter(msg => msg.data.channel !== channel)`. */
  function WithoutChannel(queue: seq<Message>, channel: string): (r: seq<Message>)
    ensures forall m :: m in r <==> m in queue && m.channel != channel
    ensures |r| <= |queue|
  {
    if queue == [] then []
    else (if queue[0].channel == channel then [] else [queue[0]]) + WithoutChannel(queue[1..], channel)
  }

  /** Filtering distributes over concatenation, so the kept messages stay in queue order. */
  lemma {:induction false} WithoutChannelConcat(a: seq<Message>, b: seq<Message>, channel: string)
    ensures WithoutChannel(a + b, channel) == WithoutChannel(a, channel) + WithoutChannel(b, channel)
  {
    if a == [] {
      assert a + b == b;
    } else {
      assert (a + b)[1..] == a[1..] + b;
      WithoutChannelConcat(a[1..], b, channel);
    }
  }

  /** A queue holding no message of the channel is left exactly as it is. */
  lemma {:induction false} WithoutChannelKeeps(queue: seq<Message>, channel: string)
    requires forall m :: m in queue ==> m.channel != channel
    ensures WithoutChannel(queue, channel) == queue
  {
    if queue != [] {
      assert queue == [queue[0]] + queue[1..];
      WithoutChannelKeeps(queue[1..], channel);
    }
  }

  // ---------------------------------------------------------------------------
  // The emitter
  // ---------------------------------------------------------------------------

  /** Handlers registered for an event, in registration order. */
  function Listeners(emitter: Emitter, event: string): seq<Handler> {
    if event in emitter then emitter[event] else []
  }

  /** `emitter.on(event, h)`. */
  function On(emitter: Emitter, event: string, h: Handler): (r: Emitter)
    ensures Listeners(r, event) == Listeners(emitter, event) + [h]
    ensures forall e :: e != event ==> Listeners(r, e) == Listeners(emitter, e)
  {
    emitter[event := Listeners(emitter, event) + [h]]
  }

  /** `emitter.off(event)`: drops every handler of the event. */
  function OffAll(emitter: Emitter, event: string): (r: Emitter)
    ensures Listeners(r, event) == []
    ensures forall e :: e != event ==> Listeners(r, e) == Listeners(emitter, e)
  {
    emitter - {event}
  }

  function Without(hs: seq<Handler>, h: Handler): (r: seq<Handler>)
    ensures forall x :: x in r <==> x in hs && x != h
  {
    if hs == [] then []
    else (if hs[0] == h then [] else [hs[0]]) + Without(hs[1..], h)
  }

  /** `emitter.off(event, h)`: drops that one handler. */
  function Off(emitter: Emitter, event: string, h: Handler): (r: Emitter)
    ensures Listeners(r, event) == Without(Listeners(emitter, event), h)
    ensures forall e :: e != event ==> Listeners(r, e) == Listeners(emitter, e)
  {
    if event in emitter then emitter[event := Without(emitter[event], h)] else emitter
  }

  /**
   * Every handler sits on the event it belongs to: only `connected` listeners
   * on "connected", only once-handlers on "error", only status callbacks on
   * the task channels.
   */
  ghost predicate WellPlaced(emitter: Emitter) {
    && (forall h :: h in Listeners(emitter, "connected") ==> h == ConnectedListener)
    && (forall h :: h in Listeners(emitter, "error") ==> h.OnceErrorHandler?)
    && (forall e, h :: e != "connected" && e != "error" && h in Listeners(emitter, e) ==> h.StatusHandler?)
  }

  // ---------------------------------------------------------------------------
  // Sockets
  // ---------------------------------------------------------------------------

  /** What transmitting `ms` over the socket `ws` asks of it: nothing without a socket. */
  function Sent(ws: Option<SocketId>, ms: seq<Message>): (ops: seq<SocketOp>)
    ensures ws.None? ==> ops == []
    ensures ws.Some? ==> |ops| == |ms|
  {
    if ws.None? || ms == [] then [] else [Transmit(ws.value, ms[0])] + Sent(ws, ms[1..])
  }

  /** With a socket, the i-th request transmits the i-th message over it. */
  lemma {:induction false} SentInOrder(ws: Option<SocketId>, ms: seq<Message>)
    requires ws.Some?
    ensures forall i :: 0 <= i < |ms| ==> Sent(ws, ms)[i] == Transmit(ws.value, ms[i])
    decreases |ms|
  {
    if ms != [] {
      SentInOrder(ws, ms[1..]);
    }
  }

  /** What `ws?.close()` asks of the socket. */
  function Closed(ws: Option<SocketId>): seq<SocketOp> {
    if ws.Some? then [Close(ws.value)] else []
  }

  /** `send(message)`: `ws?.send(...)`, a no-op when there is no socket. */
  function Send(s: State, m: Message): (r: State)
    ensures r == s.(wire := s.wire + Sent(s.ws, [m]))
    ensures s.ws.None? ==> r == s
  {
    if s.ws.Some? then s.(wire := s.wire + [Transmit(s.ws.value, m)]) else s
  }

  /** `ms.forEach(m => send(m))`. */
  function SendAll(s: State, ms: seq<Message>): (r: State)
    ensures r == s.(wire := s.wire + Sent(s.ws, ms))
    decreases |ms|
  {
    if ms == [] then s
    else
      var r := SendAll(Send(s, ms[0]), ms[1..]);
      assert s.ws.Some? ==> Sent(s.ws, ms) == [Transmit(s.ws.value, ms[0])] + Sent(s.ws, ms[1..]);
      r
  }

  /**
   * `connect()`: only when not connected and holding no socket, open a new
   * socket and register one more `connected` listener; otherwise nothing.
   */
  function Connect(s: State): (r: State)
    ensures !s.isConnected && s.ws.None? ==>
      && r.ws == Some(s.nextSocket)
      && r.wire == s.wire + [Open(s.nextSocket)]
      && r.nextSocket == s.nextSocket + 1
      && Listeners(r.emitter, "connected") == Listeners(s.emitter, "connected") + [ConnectedListener]
      && (forall e :: e != "connected" ==> Listeners(r.emitter, e) == Listeners(s.emitter, e))
      && r.(ws := s.ws, wire := s.wire, nextSocket := s.nextSocket, emitter := s.emitter) == s
    ensures s.isConnected || s.ws.Some? ==> r == s
  {
    if !s.isConnected && s.ws.None? then
      s.(ws := Some(s.nextSocket),
         wire := s.wire + [Open(s.nextSocket)],
         nextSocket := s.nextSocket + 1,
         emitter := On(s.emitter, "connected", ConnectedListener))
    else s
  }

  /** A second `connect()` changes nothing. */
  lemma ConnectIdempotent(s: State)
    ensures Connect(Connect(s)) == Connect(s)
  {
  }

  // ---------------------------------------------------------------------------
  // Subscribing
  // ---------------------------------------------------------------------------

  /**
   * `subscribe(token, callback)`: count the subscriber, connect, register the
   * callback on the token's channel, then send the subscribe message when
   * connected or append it to the queue otherwise.
   */
  function Subscribe(s: State, token: string, callback: nat): (r: State)
    ensures r.subscribers == s.subscribers + 1
    ensures Listeners(r.emitter, ChannelOf(token)) == Listeners(s.emitter, ChannelOf(token)) + [StatusHandler(callback)]
    ensures r.emitter == On(Connect(s).emitter, ChannelOf(token), StatusHandler(callback))
    ensures r.ws == Connect(s).ws && r.nextSocket == Connect(s).nextSocket && r.nextKey == s.nextKey
    ensures !s.isConnected && s.ws.None? ==> r.ws == Some(s.nextSocket)
    ensures r.isConnected == s.isConnected && r.delivered == s.delivered
    ensures s.isConnected ==>
      r.ws == s.ws && r.queue == s.queue && r.wire == s.wire + Sent(s.ws, [SubscribeMessage(token)])
    ensures !s.isConnected ==>
      && r.ws.Some?
      && r.queue == s.queue + [SubscribeMessage(token)]
      && r.wire == s.wire + (if s.ws.None? then [Open(s.nextSocket)] else [])
  {
    var s1 := Connect(s.(subscribers := s.subscribers + 1));
    var message := SubscribeMessage(token);
    var s2 := s1.(emitter := On(s1.emitter, ChannelOf(token), StatusHandler(callback)));
    if s2.isConnected then Send(s2, message) else s2.(queue := s2.queue + [message])
  }

  /** `ws?.close(); ws = undefined; isConnected = false`. */
  function TearDown(s: State): (r: State)
    ensures r.ws.None? && !r.isConnected && r.wire == s.wire + Closed(s.ws)
    ensures r.(ws := s.ws, isConnected := s.isConnected, wire := s.wire) == s
  {
    s.(wire := s.wire + Closed(s.ws), ws := None, isConnected := false)
  }

  /**
   * `unsubscribe(token)`: uncount the subscriber, drop the channel's
   * callbacks, then send the unsubscribe message when connected or filter the
   * channel out of the queue otherwise; tear the connection down exactly when
   * the count has just become 0 (there is no guard against going below 0).
   */
  function Unsubscribe(s: State, token: string): (r: State)
    ensures r.subscribers == s.subscribers - 1
    ensures Listeners(r.emitter, ChannelOf(token)) == []
    ensures forall e :: e != ChannelOf(token) ==> Listeners(r.emitter, e) == Listeners(s.emitter, e)
    ensures s.isConnected ==> r.queue == s.queue
    ensures !s.isConnected ==> r.queue == WithoutChannel(s.queue, ChannelOf(token))
    ensures r.wire == s.wire
      + (if s.isConnected then Sent(s.ws, [UnsubscribeMessage(token)]) else [])
      + (if s.subscribers - 1 == 0 then Closed(s.ws) else [])
    ensures s.subscribers - 1 == 0 ==> r.ws.None? && !r.isConnected
    ensures s.subscribers - 1 != 0 ==> r.ws == s.ws && r.isConnected == s.isConnected
    ensures r.delivered == s.delivered && r.nextSocket == s.nextSocket && r.nextKey == s.nextKey
  {
    var s1 := s.(subscribers := s.subscribers - 1);
    var channel := ChannelOf(token);
    var s2 := s1.(emitter := OffAll(s1.emitter, channel));
    var s3 := if s2.isConnected then Send(s2, UnsubscribeMessage(token))
              else s2.(queue := WithoutChannel(s2.queue, channel));
    if s3.subscribers == 0 then TearDown(s3) else s3
  }

  /**
   * While disconnected, subscribing to a token with nothing queued for it and
   * unsubscribing again restores the queue and the subscriber count.
   */
  lemma SubscribeUnsubscribeRestoresQueue(s: State, token: string, callback: nat)
    requires !s.isConnected
    requires forall m :: m in s.queue ==> m.channel != ChannelOf(token)
    ensures Unsubscribe(Subscribe(s, token, callback), token).queue == s.queue
    ensures Unsubscribe(Subscribe(s, token, callback), token).subscribers == s.subscribers
  {
    var channel := ChannelOf(token);
    WithoutChannelConcat(s.queue, [SubscribeMessage(token)], channel);
    WithoutChannelKeeps(s.queue, channel);
  }

  /**
   * After the last subscriber leaves, the next subscribe opens a new socket
   * and registers one more `connected` listener; the message waits in the
   * queue until that socket reports the connection.
   */
  lemma ResubscribeAfterTeardown(s: State, gone: string, token: string, callback: nat)
    requires s.subscribers == 1
    ensures var down := Unsubscribe(s, gone);
      var up := Subscribe(down, token, callback);
      && down.ws.None? && !down.isConnected
      && up.ws == Some(s.nextSocket)
      && up.wire == down.wire + [Open(s.nextSocket)]
      && Listeners(up.emitter, "connected") == Listeners(s.emitter, "connected") + [ConnectedListener]
      && !up.isConnected
      && up.queue == down.queue + [SubscribeMessage(token)]
      && up.subscribers == 1
  {
    assert ChannelOf(gone) != "connected";
  }

  /** `error(callback)`: register a fresh handler that runs the callback and then removes itself. */
  function OnError(s: State, callback: nat): (r: State)
    ensures Listeners(r.emitter, "error") == Listeners(s.emitter, "error") + [OnceErrorHandler(s.nextKey, callback)]
    ensures forall e :: e != "error" ==> Listeners(r.emitter, e) == Listeners(s.emitter, e)
    ensures r.nextKey == s.nextKey + 1
    ensures r.(emitter := s.emitter, nextKey := s.nextKey) == s
  {
    s.(emitter := On(s.emitter, "error", OnceErrorHandler(s.nextKey, callback)), nextKey := s.nextKey + 1)
  }

  // ---------------------------------------------------------------------------
  // The `connected` listener and emitting
  // ---------------------------------------------------------------------------

  /**
   * The `connected` listener: mark the client connected, send every queued
   * message in queue order, then empty the queue.
   */
  function OnConnected(s: State): (r: State)
    ensures r.isConnected && r.queue == []
    ensures r.wire == s.wire + Sent(s.ws, s.queue)
    ensures r.(isConnected := s.isConnected, queue := s.queue, wire := s.wire) == s
  {
    var s1 := s.(isConnected := true);
    SendAll(s1, s1.queue).(queue := [])
  }

  /** Running the listener again after a flush changes nothing. */
  lemma OnConnectedIdempotent(s: State)
    ensures OnConnected(OnConnected(s)) == OnConnected(s)
  {
    var r := OnConnected(s);
    assert Sent(r.ws, []) == [];
    assert r.wire + [] == r.wire;
  }

  /**
   * Running one handler with the payload of the emitted event. No handler
   * touches the socket, the count or the identities; a user callback leaves
   * the connection state alone, and an error wrapper removes itself.
   */
  function Invoke(s: State, h: Handler, p: Payload): (r: State)
    ensures r.ws == s.ws && r.subscribers == s.subscribers
    ensures r.nextSocket == s.nextSocket && r.nextKey == s.nextKey
    ensures !h.ConnectedListener? ==> r.queue == s.queue && r.wire == s.wire && r.isConnected == s.isConnected
    ensures h.OnceErrorHandler? ==> h !in Listeners(r.emitter, "error")
  {
    match h
    case StatusHandler(callback) => s.(delivered := s.delivered + [Delivery(callback, p)])
    case ConnectedListener => OnConnected(s)
    case OnceErrorHandler(_, callback) =>
      s.(delivered := s.delivered + [Delivery(callback, p)], emitter := Off(s.emitter, "error", h))
  }

  /** The user callbacks that running `hs` calls, in order. */
  function Deliveries(hs: seq<Handler>, p: Payload): seq<Delivery> {
    if hs == [] then []
    else
      (match hs[0]
       case StatusHandler(callback) => [Delivery(callback, p)]
       case ConnectedListener => []
       case OnceErrorHandler(_, callback) => [Delivery(callback, p)])
      + Deliveries(hs[1..], p)
  }

  /**
   * Running the handlers `hs` one after the other. Each user callback is
   * called once, in order; only once-handlers leave the emitter, each
   * removing itself from "error".
   */
  function EmitTo(s: State, hs: seq<Handler>, p: Payload): (r: State)
    ensures r.delivered == s.delivered + Deliveries(hs, p)
    ensures r.ws == s.ws && r.subscribers == s.subscribers
    ensures r.nextSocket == s.nextSocket && r.nextKey == s.nextKey
    ensures forall e :: e != "error" ==> Listeners(r.emitter, e) == Listeners(s.emitter, e)
    ensures forall x :: x in Listeners(r.emitter, "error") ==>
      x in Listeners(s.emitter, "error") && !(x.OnceErrorHandler? && x in hs)
    decreases |hs|
  {
    if hs == [] then s
    else
      var r := EmitTo(Invoke(s, hs[0], p), hs[1..], p);
      assert hs == [hs[0]] + hs[1..];
      r
  }

  /** `emitter.emit(event, p)`: run the handlers registered when the emit starts. */
  function Emit(s: State, event: string, p: Payload): (r: State)
    ensures r.delivered == s.delivered + Deliveries(Listeners(s.emitter, event), p)
    ensures r.ws == s.ws && r.subscribers == s.subscribers
  {
    EmitTo(s, Listeners(s.emitter, event), p)
  }

  /** Handlers that only call user callbacks leave everything but `delivered` alone. */
  lemma {:induction false} EmitToCallbacksOnly(s: State, hs: seq<Handler>, p: Payload)
    requires forall h :: h in hs ==> h.StatusHandler?
    ensures EmitTo(s, hs, p) == s.(delivered := s.delivered + Deliveries(hs, p))
    decreases |hs|
  {
    if hs != [] {
      EmitToCallbacksOnly(Invoke(s, hs[0], p), hs[1..], p);
    }
  }

  /**
   * However many `connected` listeners successive connects have registered,
   * emitting `connected` flushes the queue exactly once.
   */
  lemma {:induction false} EmitToConnectedListeners(s: State, hs: seq<Handler>, p: Payload)
    requires hs != []
    requires forall h :: h in hs ==> h == ConnectedListener
    ensures EmitTo(s, hs, p) == OnConnected(s)
    decreases |hs|
  {
    assert hs[0] in hs;
    assert Invoke(s, hs[0], p) == OnConnected(s);
    if |hs| > 1 {
      assert forall h :: h in hs[1..] ==> h in hs;
      EmitToConnectedListeners(OnConnected(s), hs[1..], p);
      OnConnectedIdempotent(s);
    }
  }

  /**
   * Emitting "error" runs every registered error callback once and removes
   * every handler: a second error reaches none of them.
   */
  lemma ErrorHandlersFireOnce(s: State, p: Payload, q: Payload)
    requires WellPlaced(s.emitter)
    ensures var r := Emit(s, "error", p);
      && r.delivered == s.delivered + Deliveries(Listeners(s.emitter, "error"), p)
      && Listeners(r.emitter, "error") == []
      && Emit(r, "error", q) == r
  {
    var r := Emit(s, "error", p);
    var hs := Listeners(r.emitter, "error");
    HeadIsMember(hs);
    assert forall x :: x !in hs;
  }

  /** A non-empty sequence has a member. */
  lemma HeadIsMember<T>(s: seq<T>)
    ensures s == [] || s[0] in s
  {
  }

  // ---------------------------------------------------------------------------
  // Socket events
  // ---------------------------------------------------------------------------

  /** The socket's `message` listener. */
  function Receive(s: State, m: Incoming): (r: State)
    ensures Classify(m.event) == Ignore ==> r == s
  {
    match Classify(m.event)
    case EmitConnected => Emit(s, "connected", NoPayload)
    case EmitStatus => Emit(s, m.channel, StatusPayload(Response(m.event, m.data)))
    case Ignore => s
  }

  /** The socket's `error` listener: emit "error" with the error's message. */
  function SocketError(s: State, message: string): (r: State)
    ensures r.delivered == s.delivered + Deliveries(Listeners(s.emitter, "error"), ErrorPayload(message))
    ensures r.ws == s.ws && r.subscribers == s.subscribers
  {
    Emit(s, "error", ErrorPayload(message))
  }

  /** Running only error wrappers changes nothing but the callback log and the emitter. */
  lemma {:induction false} EmitToOnceHandlers(s: State, hs: seq<Handler>, p: Payload)
    requires forall h :: h in hs ==> h.OnceErrorHandler?
    ensures EmitTo(s, hs, p).(delivered := s.delivered, emitter := s.emitter) == s
    decreases |hs|
  {
    if hs != [] {
      assert hs[0] in hs;
      assert forall h :: h in hs[1..] ==> h in hs;
      EmitToOnceHandlers(Invoke(s, hs[0], p), hs[1..], p);
    }
  }

  /**
   * A socket error reaches every registered error callback, leaves no error
   * handler behind, and leaves the socket, the queue, the connection flag and
   * the count as they were.
   */
  lemma SocketErrorOnlyNotifies(s: State, message: string)
    requires WellPlaced(s.emitter)
    ensures var r := SocketError(s, message);
      && r.(delivered := s.delivered, emitter := s.emitter) == s
      && Listeners(r.emitter, "error") == []
  {
    EmitToOnceHandlers(s, Listeners(s.emitter, "error"), ErrorPayload(message));
    ErrorHandlersFireOnce(s, ErrorPayload(message), ErrorPayload(message));
  }

  /** A `pusher:connection_established` message runs the flush once, provided some connect registered a listener. */
  lemma ReceiveConnectionEstablished(s: State, m: Incoming)
    requires WellPlaced(s.emitter)
    requires m.event == "pusher:connection_established"
    ensures Listeners(s.emitter, "connected") != [] ==> Receive(s, m) == OnConnected(s)
    ensures Listeners(s.emitter, "connected") == [] ==> Receive(s, m) == s
  {
    var hs := Listeners(s.emitter, "connected");
    if hs != [] {
      EmitToConnectedListeners(s, hs, NoPayload);
    }
  }

  /** A `progress`, `success` or `fail` message on a task channel calls that channel's callbacks with `response(event, data)`. */
  lemma ReceiveStatus(s: State, m: Incoming)
    requires WellPlaced(s.emitter)
    requires m.event == "progress" || m.event == "success" || m.event == "fail"
    requires m.channel != "connected" && m.channel != "error"
    ensures Receive(s, m) == s.(delivered := s.delivered
      + Deliveries(Listeners(s.emitter, m.channel), StatusPayload(Response(m.event, m.data))))
  {
    EmitToCallbacksOnly(s, Listeners(s.emitter, m.channel), StatusPayload(Response(m.event, m.data)));
  }

  // ---------------------------------------------------------------------------
  // The client invariant
  // ---------------------------------------------------------------------------

  /** Every socket id the client has used was issued by `connect`: all are below `nextSocket`. */
  ghost predicate SocketsIssued(s: State) {
    && (s.ws.Some? ==> s.ws.value < s.nextSocket)
    && (forall i :: 0 <= i < |s.wire| ==> s.wire[i].socket < s.nextSocket)
  }

  /** Every registered error wrapper was created by `error`: all keys are below `nextKey`. */
  ghost predicate KeysIssued(s: State) {
    forall h :: h in Listeners(s.emitter, "error") ==> h.OnceErrorHandler? && h.key < s.nextKey
  }

  /**
   * What holds whatever the sockets deliver: a connected client has nothing
   * queued, every handler sits on its own event, and socket ids and error
   * wrapper keys are issued.
   */
  ghost predicate Consistent(s: State) {
    && (s.isConnected ==> s.queue == [])
    && WellPlaced(s.emitter)
    && SocketsIssued(s)
    && KeysIssued(s)
  }

  /** The intended client invariant: besides, a connected client holds a socket. */
  ghost predicate Coherent(s: State) {
    && Consistent(s)
    && (s.isConnected ==> s.ws.Some?)
  }

  lemma InitialCoherent()
    ensures Coherent(Initial)
  {
  }

  /** The socket `connect` opens has an id no earlier socket operation used. */
  lemma ConnectOpensFreshSocket(s: State)
    requires Consistent(s) && !s.isConnected && s.ws.None?
    ensures Connect(s).ws.Some?
    ensures forall i :: 0 <= i < |s.wire| ==> s.wire[i].socket != Connect(s).ws.value
  {
  }

  lemma ConnectKeepsCoherent(s: State)
    requires Consistent(s)
    ensures Consistent(Connect(s))
    ensures Coherent(s) ==> Coherent(Connect(s))
  {
    var r := Connect(s);
    assert forall i :: 0 <= i < |s.wire| ==> r.wire[i] == s.wire[i];
  }

  lemma SendKeepsCoherent(s: State, m: Message)
    requires Consistent(s)
    ensures Consistent(Send(s, m))
    ensures Coherent(s) ==> Coherent(Send(s, m))
  {
    var r := Send(s, m);
    assert forall i :: 0 <= i < |s.wire| ==> r.wire[i] == s.wire[i];
  }

  lemma SubscribeKeepsCoherent(s: State, token: string, callback: nat)
    requires Consistent(s)
    ensures Consistent(Subscribe(s, token, callback))
    ensures Coherent(s) ==> Coherent(Subscribe(s, token, callback))
  {
    var r := Subscribe(s, token, callback);
    var c := Connect(s);
    ConnectKeepsCoherent(s);
    SendKeepsCoherent(c.(subscribers := s.subscribers + 1, emitter := r.emitter), SubscribeMessage(token));
    forall e, h | e != "connected" && e != "error" && h in Listeners(r.emitter, e)
      ensures h.StatusHandler?
    {
      if e != ChannelOf(token) {
        assert h in Listeners(c.emitter, e);
      }
    }
  }

  lemma UnsubscribeKeepsCoherent(s: State, token: string)
    requires Consistent(s)
    ensures Consistent(Unsubscribe(s, token))
    ensures Coherent(s) ==> Coherent(Unsubscribe(s, token))
  {
    var r := Unsubscribe(s, token);
    forall i | 0 <= i < |r.wire|
      ensures r.wire[i].socket < r.nextSocket
    {
      if i >= |s.wire| {
        assert r.wire[i].socket == s.ws.value;
      }
    }
  }

  /** The wrapper `error(callback)` registers differs from every wrapper already registered. */
  lemma OnErrorAddsFreshHandler(s: State, callback: nat)
    requires Consistent(s)
    ensures var r := OnError(s, callback);
      && (forall h :: h in Listeners(s.emitter, "error") ==> h != OnceErrorHandler(s.nextKey, callback))
      && OnceErrorHandler(s.nextKey, callback) in Listeners(r.emitter, "error")
  {
  }

  lemma OnErrorKeepsCoherent(s: State, callback: nat)
    requires Consistent(s)
    ensures Consistent(OnError(s, callback))
    ensures Coherent(s) ==> Coherent(OnError(s, callback))
  {
  }

  lemma OnConnectedKeepsCoherent(s: State)
    requires Consistent(s)
    ensures Consistent(OnConnected(s))
    ensures s.ws.Some? ==> Coherent(OnConnected(s))
  {
    var r := OnConnected(s);
    forall i | 0 <= i < |r.wire|
      ensures r.wire[i].socket < r.nextSocket
    {
      if i >= |s.wire| {
        SentInOrder(s.ws, s.queue);
        assert r.wire[i] == Sent(s.ws, s.queue)[i - |s.wire|];
      }
    }
  }

  /**
   * Running handlers keeps `Consistent`; it keeps `Coherent` while a socket
   * is held, or when no `connected` listener runs.
   */
  lemma {:induction false} EmitToKeepsCoherent(s: State, hs: seq<Handler>, p: Payload)
    requires Consistent(s)
    ensures Consistent(EmitTo(s, hs, p))
    ensures Coherent(s) && (s.ws.Some? || ConnectedListener !in hs) ==> Coherent(EmitTo(s, hs, p))
    decreases |hs|
  {
    if hs != [] {
      var s1 := Invoke(s, hs[0], p);
      assert Consistent(s1) && (Coherent(s) && (s.ws.Some? || hs[0] != ConnectedListener) ==> Coherent(s1)) by {
        if hs[0].OnceErrorHandler? {
          assert forall h :: h in Listeners(s1.emitter, "error") ==> h in Listeners(s.emitter, "error");
        } else if hs[0].ConnectedListener? {
          OnConnectedKeepsCoherent(s);
        }
      }
      assert hs == [hs[0]] + hs[1..];
      EmitToKeepsCoherent(s1, hs[1..], p);
    }
  }

  /**
   * Every incoming message keeps `Consistent`; one from the socket the client
   * holds also keeps `Coherent`.
   */
  lemma ReceiveKeepsCoherent(s: State, m: Incoming)
    requires Consistent(s)
    ensures Consistent(Receive(s, m))
    ensures Coherent(s) && s.ws.Some? ==> Coherent(Receive(s, m))
  {
    match Classify(m.event)
    case EmitConnected => EmitToKeepsCoherent(s, Listeners(s.emitter, "connected"), NoPayload);
    case EmitStatus =>
      EmitToKeepsCoherent(s, Listeners(s.emitter, m.channel), StatusPayload(Response(m.event, m.data)));
    case Ignore =>
  }

  lemma SocketErrorKeepsCoherent(s: State, message: string)
    requires Consistent(s)
    ensures Consistent(SocketError(s, message))
    ensures Coherent(s) ==> Coherent(SocketError(s, message))
  {
    EmitToKeepsCoherent(s, Listeners(s.emitter, "error"), ErrorPayload(message));
  }

  // ---------------------------------------------------------------------------
  // Messages from a socket that was torn down
  // ---------------------------------------------------------------------------

  /**
   * The `message` listener of a socket is never removed, and neither is the
   * `connected` listener its `connect` registered. If the last subscriber
   * leaves before the server's `pusher:connection_established` arrives and
   * the closing socket still delivers it, the client believes it is connected
   * while holding no socket; the next subscription is then neither sent nor
   * queued.
   */
  lemma StaleConnectionLosesSubscription(token: string, callback: nat, m: Incoming)
    requires m.event == "pusher:connection_established"
    ensures var down := Unsubscribe(Subscribe(Initial, token, callback), token);
      var stale := Receive(down, m);
      var again := Subscribe(stale, token, callback);
      && down.ws.None? && !down.isConnected
      && stale.isConnected && stale.ws.None? && !Coherent(stale)
      && again.subscribers == 1
      && again.wire == down.wire && again.queue == []
  {
    var up := Subscribe(Initial, token, callback);
    var down := Unsubscribe(up, token);
    assert up.queue == [SubscribeMessage(token)];
    assert down.queue == [];
    assert ChannelOf(token) != "connected";
    assert Listeners(down.emitter, "connected") == [ConnectedListener];
    EmitToConnectedListeners(down, [ConnectedListener], NoPayload);
  }

  /**
   * The `message` handling as intended: a message counts only when it comes
   * from the socket the client holds; one from a socket torn down earlier is
   * dropped.
   */
  function ReceiveFrom(s: State, from: SocketId, m: Incoming): (r: State)
    ensures s.ws != Some(from) ==> r == s
    ensures Classify(m.event) == Ignore ==> r == s
  {
    if s.ws == Some(from) then Receive(s, m) else s
  }

  /** Handled as intended, a message keeps `Coherent` whatever socket it comes from. */
  lemma ReceiveFromKeepsCoherent(s: State, from: SocketId, m: Incoming)
    requires Coherent(s)
    ensures Coherent(ReceiveFrom(s, from, m))
  {
    if s.ws == Some(from) {
      ReceiveKeepsCoherent(s, m);
    }
  }
}
