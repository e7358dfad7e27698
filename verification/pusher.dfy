/**
 * The `Pusher` class of src/uploadFile/pusher.ts: one object whose methods
 * update its fields in place. Each method is proved to move the object's
 * fields exactly as the matching function of PusherModel moves a `State`.
 * `Valid()` is PusherModel.Consistent, which every public method keeps
 * whatever the sockets deliver; each also keeps PusherModel.Coherent, except
 * that a message from a socket already torn down can break it.
 */
module PusherClient {
  import opened Common
  import M = PusherModel

  class Pusher {
    var ws: Option<M.SocketId>
    var queue: seq<M.Message>
    var isConnected: bool
    var subscribers: int
    var emitter: M.Emitter
    /** Everything the sockets were asked to do, oldest first. */
    var wire: seq<M.SocketOp>
    /** Every user callback call made by the emitter, oldest first. */
    var delivered: seq<M.Delivery>
    /** Identity the next socket will get. */
    var nextSocket: nat
    /** Identity the next `error` wrapper will get. */
    var nextKey: nat

    /** The object's fields as a PusherModel state. */
    ghost function Abs(): M.State
      reads this
    {
      M.State(ws, queue, isConnected, subscribers, emitter, wire, delivered, nextSocket, nextKey)
    }

    ghost predicate Valid()
      reads this
    {
      M.Consistent(Abs())
    }

    /** The intended invariant: besides `Valid()`, a connected client holds a socket. */
    ghost predicate Coherent()
      reads this
    {
      M.Coherent(Abs())
    }

    constructor ()
      ensures Abs() == M.Initial && Valid() && Coherent()
    {
      ws := None;
      queue := [];
      isConnected := false;
      subscribers := 0;
      emitter := map[];
      wire := [];
      delivered := [];
      nextSocket := 0;
      nextKey := 0;
      M.InitialCoherent();
    }

    /** `connect()`. */
    method Connect()
      requires Valid()
      modifies this
      ensures Abs() == M.Connect(old(Abs()))
      ensures Valid() && (old(Coherent()) ==> Coherent())
    {
      M.ConnectKeepsCoherent(Abs());
      if !isConnected && ws.None? {
        ws := Some(nextSocket);
        wire := wire + [M.Open(nextSocket)];
        nextSocket := nextSocket + 1;
        emitter := M.On(emitter, "connected", M.ConnectedListener);
      }
    }

    /** `send(message)`. */
    method Send(message: M.Message)
      modifies this
      ensures Abs() == M.Send(old(Abs()), message)
      ensures old(Valid()) ==> Valid()
      ensures old(Coherent()) ==> Coherent()
    {
      if ws.Some? {
        wire := wire + [M.Transmit(ws.value, message)];
      }
    }

    /** `subscribe(token, handler)`. */
    method Subscribe(token: string, callback: nat)
      requires Valid()
      modifies this
      ensures Abs() == M.Subscribe(old(Abs()), token, callback)
      ensures subscribers == old(subscribers) + 1
      ensures old(isConnected) ==> queue == old(queue)
      ensures !old(isConnected) ==> queue == old(queue) + [M.SubscribeMessage(token)]
      ensures Valid() && (old(Coherent()) ==> Coherent())
    {
      M.SubscribeKeepsCoherent(Abs(), token, callback);
      subscribers := subscribers + 1;
      Connect();
      var channel := M.ChannelOf(token);
      var message := M.Message("pusher:subscribe", channel);
      emitter := M.On(emitter, channel, M.StatusHandler(callback));
      if isConnected {
        Send(message);
      } else {
        queue := queue + [message];
      }
    }

    /** `unsubscribe(token)`. */
    method Unsubscribe(token: string)
      requires Valid()
      modifies this
      ensures Abs() == M.Unsubscribe(old(Abs()), token)
      ensures subscribers == old(subscribers) - 1
      ensures !old(isConnected) ==> queue == M.WithoutChannel(old(queue), M.ChannelOf(token))
      ensures subscribers == 0 ==> ws.None? && !isConnected
      ensures Valid() && (old(Coherent()) ==> Coherent())
    {
      subscribers := subscribers - 1;
      var channel := M.ChannelOf(token);
      var message := M.Message("pusher:unsubscribe", channel);
      emitter := M.OffAll(emitter, channel);
      if isConnected {
        Send(message);
      } else {
        queue := M.WithoutChannel(queue, channel);
      }
      if subscribers == 0 {
        if ws.Some? {
          wire := wire + [M.Close(ws.value)];
        }
        ws := None;
        isConnected := false;
      }
      M.UnsubscribeKeepsCoherent(old(Abs()), token);
    }

    /** `error(callback)`. */
    method Error(callback: nat)
      requires Valid()
      modifies this
      ensures Abs() == M.OnError(old(Abs()), callback)
      ensures Valid() && (old(Coherent()) ==> Coherent())
    {
      emitter := M.On(emitter, "error", M.OnceErrorHandler(nextKey, callback));
      nextKey := nextKey + 1;
      M.OnErrorKeepsCoherent(old(Abs()), callback);
    }

    /** The `connected` listener: flush the queue in order, then empty it. */
    method OnConnected()
      modifies this
      ensures Abs() == M.OnConnected(old(Abs()))
    {
      isConnected := true;
      var pending := queue;
      var i := 0;
      while i < |pending|
        invariant 0 <= i <= |pending|
        invariant queue == pending
        invariant M.SendAll(old(Abs()).(isConnected := true), pending) == M.SendAll(Abs(), pending[i..])
      {
        assert pending[i..][1..] == pending[i + 1..];
        Send(pending[i]);
        i := i + 1;
      }
      queue := [];
    }

    /** Runs one handler as the emitter does. */
    method Invoke(h: M.Handler, p: M.Payload)
      modifies this
      ensures Abs() == M.Invoke(old(Abs()), h, p)
    {
      match h
      case StatusHandler(callback) =>
        delivered := delivered + [M.Delivery(callback, p)];
      case ConnectedListener =>
        OnConnected();
      case OnceErrorHandler(_, callback) =>
        delivered := delivered + [M.Delivery(callback, p)];
        emitter := M.Off(emitter, "error", h);
    }

    /** `emitter.emit(event, p)`: the handlers registered when it starts, one after the other. */
    method Emit(event: string, p: M.Payload)
      modifies this
      ensures Abs() == M.Emit(old(Abs()), event, p)
    {
      var handlers := M.Listeners(emitter, event);
      var i := 0;
      while i < |handlers|
        invariant 0 <= i <= |handlers|
        invariant M.EmitTo(old(Abs()), handlers, p) == M.EmitTo(Abs(), handlers[i..], p)
      {
        assert handlers[i..][1..] == handlers[i + 1..];
        Invoke(handlers[i], p);
        i := i + 1;
      }
    }

    /**
     * The `message` listener of any socket this client opened: it is never
     * removed, so the message may come from a socket torn down since.
     */
    method OnMessage(m: M.Incoming)
      requires Valid()
      modifies this
      ensures Abs() == M.Receive(old(Abs()), m)
      ensures Valid()
      ensures old(ws.Some?) && old(Coherent()) ==> Coherent()
    {
      match M.Classify(m.event) {
        case EmitConnected =>
          Emit("connected", M.NoPayload);
        case EmitStatus =>
          Emit(m.channel, M.StatusPayload(M.Response(m.event, m.data)));
        case Ignore =>
      }
      M.ReceiveKeepsCoherent(old(Abs()), m);
    }

    /** The socket's `error` listener. */
    method OnSocketError(message: string)
      requires Valid()
      modifies this
      ensures Abs() == M.SocketError(old(Abs()), message)
      ensures Valid() && (old(Coherent()) ==> Coherent())
    {
      Emit("error", M.ErrorPayload(message));
      M.SocketErrorKeepsCoherent(old(Abs()), message);
    }
  }
}
