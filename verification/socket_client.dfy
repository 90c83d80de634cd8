/** The client side of the socket (apps/web/hooks/useSocket.ts): the
    connection status machine, the dispatch of received frames, and the
    guarded `send`. */
module SocketClient {
  import opened Base
  import opened Wire
  import Relay

  datatype Status = Connecting | Open | Closed | Error

  /** The hook's state: whether a socket was created (`wsRef.current` set),
      the status, and what the connection-ready notice reported. */
  datatype Client = Client(
    socketCreated: bool,
    status: Status,
    connectionId: Option<string>,
    isOwner: bool,
    isGuest: bool,
    isAuthenticated: bool)

  const Initial: Client := Client(false, Connecting, None, false, false, false)

  /** The effect: with `shouldConnect` false it returns before creating a socket. */
  function Connect(c: Client, shouldConnect: bool): (r: Client)
    ensures !shouldConnect ==> r == c
    ensures shouldConnect ==> r.socketCreated && r.status == Connecting
    ensures r.connectionId == c.connectionId && r.isOwner == c.isOwner
  {
    if !shouldConnect then c else c.(socketCreated := true, status := Connecting)
  }

  /** `ws.onopen`, `ws.onerror` and `ws.onclose`: each sets its status and
      keeps the socket and what the ready notice reported. */
  function OnOpen(c: Client): (r: Client)
    ensures r.status == Open && r.(status := c.status) == c
  {
    c.(status := Open)
  }

  function OnError(c: Client): (r: Client)
    ensures r.status == Error && r.(status := c.status) == c
  {
    c.(status := Error)
  }

  function OnClose(c: Client): (r: Client)
    ensures r.status == Closed && r.(status := c.status) == c
  {
    c.(status := Closed)
  }

  /** `delivered` is the message handed to the `onMessage` callback, if any. */
  datatype Received = Received(client: Client, delivered: Option<Envelope>)

  /** The role fields of a connection-ready payload, `false` when missing. */
  function RoleOf(payload: Field<Payload>): (bool, bool) {
    match payload
    case Value(RoleInfo(g, a)) => (g, a)
    case _ => (false, false)
  }

  /** `ws.onmessage`: unparseable text is dropped; a connection-ready notice
      updates the role state and is not passed on; anything else is passed
      to `onMessage` once, unchanged. */
  function OnSocketMessage(c: Client, raw: Frame): (r: Received)
    ensures Parse(raw).None? ==> r == Received(c, None)
    ensures Parse(raw).Some? && HasKind(Parse(raw).value, ConnectionReady) ==>
              var d := Parse(raw).value;
              && r.delivered.None?
              && r.client.connectionId == (if d.connectionId.Value? then Some(d.connectionId.value) else None)
              && r.client.isOwner == (d.isOwner == Value(true))
              && (r.client.isGuest <==> d.payload.Value? && d.payload.value.RoleInfo? && d.payload.value.isGuest)
              && (r.client.isAuthenticated <==> d.payload.Value? && d.payload.value.RoleInfo? && d.payload.value.isAuthenticated)
    ensures Parse(raw).Some? && !HasKind(Parse(raw).value, ConnectionReady) ==>
              r == Received(c, Parse(raw))
    ensures r.client.status == c.status && r.client.socketCreated == c.socketCreated
  {
    match Parse(raw)
    case None => Received(c, None)
    case Some(d) =>
      if d.kind == Value(Encode(ConnectionReady)) then
        var role := RoleOf(d.payload);
        Received(c.(
          connectionId := if d.connectionId.Value? then Some(d.connectionId.value) else None,
          isOwner := d.isOwner.OrElse(false),
          isGuest := role.0,
          isAuthenticated := role.1), None)
      else Received(c, Some(d))
  }

  /** `send`: writes the serialised message only when a socket exists and is
      OPEN; otherwise nothing is written. */
  function Send(c: Client, data: Envelope, socketOpen: bool): (r: Option<Frame>)
    ensures r.Some? <==> c.socketCreated && socketOpen
    ensures r.Some? ==> Parse(r.value) == Some(data)
  {
    if !c.socketCreated then None
    else if socketOpen then Some(Serialize(data))
    else None
  }

  /** Receiving a run of frames: final state and the messages passed on, in order. */
  function ReceiveAll(c: Client, frames: seq<Frame>): (Client, seq<Envelope>)
    decreases |frames|
  {
    if frames == [] then (c, [])
    else
      var r := OnSocketMessage(c, frames[0]);
      var rest := ReceiveAll(r.client, frames[1..]);
      (rest.0, (if r.delivered.Some? then [r.delivered.value] else []) + rest.1)
  }

  /** Frames that reach the application: parseable and not a ready notice. */
  predicate Deliverable(f: Frame) {
    f.Json? && !HasKind(f.msg, ConnectionReady)
  }

  /** Counting how often a message occurs among a run of frames. */
  function Occurrences(frames: seq<Frame>, e: Envelope): nat
    decreases |frames|
  {
    if frames == [] then 0
    else (if frames[0] == Json(e) then 1 else 0) + Occurrences(frames[1..], e)
  }

  /** Every deliverable frame is passed to `onMessage` exactly as often as it
      arrives, and ready notices and unparseable frames never are. */
  lemma {:induction false} ReceiveAllDeliversEachOnce(c: Client, frames: seq<Frame>, e: Envelope)
    ensures Deliverable(Json(e)) ==> multiset(ReceiveAll(c, frames).1)[e] == Occurrences(frames, e)
    ensures !Deliverable(Json(e)) ==> e !in ReceiveAll(c, frames).1
    decreases |frames|
  {
    if frames != [] {
      var r := OnSocketMessage(c, frames[0]);
      ReceiveAllDeliversEachOnce(r.client, frames[1..], e);
    }
  }

  /** Only the socket events move the status: receiving any run of frames
      leaves the status and the socket as they were. */
  lemma {:induction false} ReceiveAllKeepsStatus(c: Client, frames: seq<Frame>)
    ensures ReceiveAll(c, frames).0.status == c.status
    ensures ReceiveAll(c, frames).0.socketCreated == c.socketCreated
    decreases |frames|
  {
    if frames != [] {
      ReceiveAllKeepsStatus(OnSocketMessage(c, frames[0]).client, frames[1..]);
    }
  }

  /** Nothing is written before a socket is created: from the initial state,
      with `shouldConnect` false and whatever frames and status events
      arrive, every `send` is dropped; once connected, `send` writes exactly
      while the socket is OPEN. */
  lemma ConnectGatesSend(frames: seq<Frame>, data: Envelope, socketOpen: bool)
    ensures var c := ReceiveAll(Connect(Initial, false), frames).0;
            && Send(c, data, socketOpen).None?
            && Send(OnOpen(c), data, socketOpen).None?
            && Send(OnClose(c), data, socketOpen).None?
    ensures Send(Connect(Initial, true), data, socketOpen).Some? <==> socketOpen
  {
    ReceiveAllKeepsStatus(Connect(Initial, false), frames);
  }

  /** The relay's connection-ready notice sets exactly the id and flags the
      relay reported, and is never passed to the application. */
  lemma ReadyNoticeFromRelay(c: Client, connId: string, isOwner: bool, isGuest: bool, isAuthenticated: bool)
    ensures var r := OnSocketMessage(c, Serialize(Relay.ReadyNotice(connId, isOwner, isGuest, isAuthenticated)));
            && r.delivered.None?
            && r.client.connectionId == Some(connId)
            && r.client.isOwner == isOwner
            && r.client.isGuest == isGuest
            && r.client.isAuthenticated == isAuthenticated
  {
  }
}
