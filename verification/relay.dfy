/** The realtime relay (apps/websocket/src/index.ts): a registry of live
    connections, the member set of each room, and the publish/subscribe
    bridge that copies every room's traffic through a shared channel.

    Each socket event is one atomic step over an immutable `Relay` value.
    The outside world enters as parameters: the outcome of verifying the
    connection's token, the project-owner lookup, the random UUIDs, and the
    set of connections whose socket is currently OPEN. */
module Relay {
  import opened Base
  import opened Jwt
  import opened Wire

  type ConnId = string
  type RoomId = string

  /** WebSocket close code "policy violation". */
  const PolicyViolation: int := 1008

  /** The identity a verified token yields. */
  datatype AuthInfo = AuthInfo(userName: string, userId: string)

  /** `authentication(token)`: fails closed. Null when verification throws,
      when the payload is a string, or when it has no truthy `id`; otherwise
      the `id` claim and the `name` claim, or "Guest" when there is none. */
  function Authentication(v: Verification): (r: Option<AuthInfo>)
    ensures r.Some? <==> v.DecodedObject? && Truthy(v.claims.id)
    ensures r.Some? ==> r.value.userId == v.claims.id.value && r.value.userId != ""
    ensures r.Some? && Truthy(v.claims.name) ==> r.value.userName == v.claims.name.value
    ensures r.Some? && !Truthy(v.claims.name) ==> r.value.userName == "Guest"
  {
    match v
    case Threw => None
    case DecodedText(_) => None
    case DecodedObject(c) =>
      if !Truthy(c.id) then None
      else Some(AuthInfo(userName := OrString(c.name, "Guest"), userId := c.id.value))
  }

  /** One live socket. `rooms` always holds the single room it joined. */
  datatype Connection = Connection(
    connectionId: ConnId,
    userId: string,
    userName: string,
    rooms: seq<RoomId>,
    isOwner: bool)

  /** The module-level registries of one relay process. `listeners` lists,
      in registration order, the room each `subscriber.on("message")`
      callback captured. */
  datatype Relay = Relay(
    connections: map<ConnId, Connection>,
    roomMembers: map<RoomId, set<ConnId>>,
    roomOwners: map<RoomId, string>,
    subscribedChannels: set<string>,
    listeners: seq<RoomId>)

  const Initial: Relay := Relay(map[], map[], map[], {}, [])

  /** The publish/subscribe channel of a room. */
  function Channel(roomId: RoomId): string {
    "room:" + roomId
  }

  lemma ChannelInjective(a: RoomId, b: RoomId)
    requires Channel(a) == Channel(b)
    ensures a == b
  {
    PrefixInjective("room:", a, b);
  }

  /** The member set of a room; an unknown room has none. */
  function Members(s: Relay, roomId: RoomId): set<ConnId> {
    if roomId in s.roomMembers then s.roomMembers[roomId] else {}
  }

  /** Who `broadcast(roomId, msg, exclude)` writes to: members that are not
      excluded, still registered, and whose socket is OPEN. */
  function Recipients(s: Relay, roomId: RoomId, exclude: seq<ConnId>, open: set<ConnId>): set<ConnId> {
    set c | c in Members(s, roomId) && c !in exclude && c in s.connections && c in open
  }

  /** `broadcast`: walks the room's member set once, skipping excluded ids,
      ids with no registered connection and sockets that are not OPEN. It
      never removes anyone, so it returns only the set written to. */
  method Broadcast(s: Relay, roomId: RoomId, exclude: seq<ConnId>, open: set<ConnId>) returns (sent: set<ConnId>)
    ensures forall c :: c in sent <==> c in Members(s, roomId) && c !in exclude && c in s.connections && c in open
    ensures sent == Recipients(s, roomId, exclude, open)
    ensures roomId !in s.roomMembers ==> sent == {}
  {
    sent := {};
    var pending := Members(s, roomId);
    while pending != {}
      invariant pending <= Members(s, roomId)
      invariant forall c :: c in sent <==> c in Members(s, roomId) && c !in pending && c !in exclude && c in s.connections && c in open
      decreases pending
    {
      var c :| c in pending;
      pending := pending - {c};
      if c in exclude {
        continue;
      }
      if c in s.connections && c in open {
        sent := sent + {c};
      }
    }
  }

  /** The identity a new connection takes on. */
  datatype Identity = Identity(userId: string, userName: string, verified: bool, isAuthenticated: bool)

  /** Lines 100-105: `auth`, `isAuthenticated`, `userId`, `userName`. A
      connection without a verified identity becomes a fresh guest. */
  function ResolveIdentity(token: Option<string>, verification: Verification, guestUuid: string): (id: Identity)
    ensures id.verified <==> Truthy(token) && Authentication(verification).Some?
    ensures id.verified ==> id.userId == Authentication(verification).value.userId
    ensures id.verified ==> id.userName == Authentication(verification).value.userName
    ensures !id.verified ==> id.userId == GuestPrefix + guestUuid && id.userName == "Guest"
    ensures id.isAuthenticated <==> !StartsWith(id.userId, GuestPrefix)
  {
    var auth := if Truthy(token) then Authentication(verification) else None;
    var authId: Option<string> := if auth.Some? then Some(auth.value.userId) else None;
    var authName: Option<string> := if auth.Some? then Some(auth.value.userName) else None;
    var userId := OrString(authId, GuestPrefix + guestUuid);
    PrefixStartsWith(GuestPrefix, guestUuid);
    Identity(
      userId := userId,
      userName := OrString(authName, "Guest"),
      verified := auth.Some?,
      isAuthenticated := auth.Some? && !StartsWith(auth.value.userId, GuestPrefix))
  }

  /** The first message the relay sends on a new connection. */
  function ReadyNotice(connId: ConnId, isOwner: bool, isGuest: bool, isAuthenticated: bool): Envelope {
    Empty.(
      kind := Value(Encode(ConnectionReady)),
      connectionId := Value(connId),
      isOwner := Value(isOwner),
      isGuest := Value(isGuest),
      payload := Value(RoleInfo(isGuest, isAuthenticated)))
  }

  datatype Admission =
    | Refused(code: int, reason: string)
    | Admitted(connectionId: ConnId, ready: Envelope, listenerAdded: bool)

  datatype ConnectOutcome = ConnectOutcome(state: Relay, admission: Admission)

  /** The connection handler. `roomId` and `token` are the query parameters,
      `verification` what verifying `token` yields, `projectOwner` what
      `getProjectOwner(roomId)` returns (null for "no project" and for any
      lookup failure), and the two UUIDs the handler draws. */
  function OnConnection(
    s: Relay, roomId: Option<string>, token: Option<string>, verification: Verification,
    guestUuid: string, connUuid: ConnId, projectOwner: Option<string>): (r: ConnectOutcome)
    requires connUuid !in s.connections
    ensures !Truthy(roomId) ==> r.admission == Refused(PolicyViolation, "Missing room ID")
    ensures Truthy(roomId) && Truthy(projectOwner) && !(Truthy(token) && Authentication(verification).Some?)
            ==> r.admission == Refused(PolicyViolation, "Unauthorized access to project room")
    ensures r.admission.Admitted? <==>
              Truthy(roomId) && (Truthy(projectOwner) ==> Truthy(token) && Authentication(verification).Some?)
    ensures r.admission.Refused? ==> r.state == s && r.admission.code == PolicyViolation
    ensures r.admission.Admitted? ==>
              var rid := roomId.value;
              var id := ResolveIdentity(token, verification, guestUuid);
              && r.admission.connectionId == connUuid
              && r.state.connections == s.connections[connUuid := Connection(connUuid, id.userId, id.userName, [rid], projectOwner == Some(id.userId))]
              && r.state.roomMembers == s.roomMembers[rid := Members(s, rid) + {connUuid}]
              && r.state.roomOwners == s.roomOwners
              && r.state.subscribedChannels == s.subscribedChannels + {Channel(rid)}
              && r.admission.listenerAdded == (Channel(rid) !in s.subscribedChannels)
              && r.state.listeners == (if Channel(rid) in s.subscribedChannels then s.listeners else s.listeners + [rid])
              && r.admission.ready == ReadyNotice(connUuid, projectOwner == Some(id.userId), StartsWith(id.userId, GuestPrefix), id.isAuthenticated)
  {
    if !Truthy(roomId) then
      ConnectOutcome(s, Refused(PolicyViolation, "Missing room ID"))
    else
      var rid := roomId.value;
      var id := ResolveIdentity(token, verification, guestUuid);
      var isProjectRoom := Truthy(projectOwner);
      if isProjectRoom && !id.verified then
        ConnectOutcome(s, Refused(PolicyViolation, "Unauthorized access to project room"))
      else
        var isOwner := projectOwner == Some(id.userId);
        var isGuest := StartsWith(id.userId, GuestPrefix);
        var channel := Channel(rid);
        var newListener := channel !in s.subscribedChannels;
        var s' := s.(
          connections := s.connections[connUuid := Connection(connUuid, id.userId, id.userName, [rid], isOwner)],
          roomMembers := s.roomMembers[rid := Members(s, rid) + {connUuid}],
          subscribedChannels := s.subscribedChannels + {channel},
          listeners := if newListener then s.listeners + [rid] else s.listeners);
        ConnectOutcome(s', Admitted(connUuid, ReadyNotice(connUuid, isOwner, isGuest, id.isAuthenticated), newListener))
  }

  /** A `publisher.publish(channel, text)` call. */
  datatype Publication = Publication(channel: string, frame: Frame)

  /** What one inbound frame causes. The handler writes no registry, so the
      relay state after it is the state before it. */
  datatype MessageOutcome = MessageOutcome(published: Option<Publication>, delivered: set<ConnId>)

  /** `ws.on("message")`: a frame that parses is published, re-serialised,
      on the room's channel and broadcast to the room excluding the sender;
      one that does not parse is dropped. The kind is never looked at. */
  function OnMessage(s: Relay, roomId: RoomId, connId: ConnId, raw: Frame, open: set<ConnId>): (r: MessageOutcome)
    ensures raw.Garbage? ==> r.published.None? && r.delivered == {}
    ensures raw.Json? ==> r.published == Some(Publication(Channel(roomId), raw))
    ensures raw.Json? ==> r.delivered == Recipients(s, roomId, [connId], open)
    ensures connId !in r.delivered
  {
    match Parse(raw)
    case None => MessageOutcome(None, {})
    case Some(msg) => MessageOutcome(Some(Publication(Channel(roomId), Serialize(msg))), Recipients(s, roomId, [connId], open))
  }

  /** Deliveries of one message by the listeners `ls`, in order: each
      broadcasts to the room it captured, with no exclusion. */
  function ListenerDeliveries(s: Relay, ls: seq<RoomId>, open: set<ConnId>): (r: seq<set<ConnId>>)
    ensures |r| == |ls|
    ensures forall i :: 0 <= i < |ls| ==> r[i] == Recipients(s, ls[i], [], open)
  {
    if ls == [] then [] else [Recipients(s, ls[0], [], open)] + ListenerDeliveries(s, ls[1..], open)
  }

  /** A message arriving on the subscriber connection. The subscriber is
      subscribed to every channel in `subscribedChannels`, and every
      registered listener receives every such message whatever its channel. */
  function OnRedisMessage(s: Relay, channel: string, frame: Frame, open: set<ConnId>): (r: seq<set<ConnId>>)
    ensures channel !in s.subscribedChannels || frame.Garbage? ==> r == []
    ensures channel in s.subscribedChannels && frame.Json? ==> r == ListenerDeliveries(s, s.listeners, open)
  {
    if channel !in s.subscribedChannels then []
    else match Parse(frame)
      case None => []
      case Some(_) => ListenerDeliveries(s, s.listeners, open)
  }

  /** `ws.on("close")` with the values its closure captured. The room entry
      goes away only when the set is now empty and the leaver is the owner
      the lookup reports, and `roomOwners` loses its entry at the same time. */
  function OnClose(s: Relay, connId: ConnId, roomId: RoomId, userId: string, projectOwner: Option<string>): (r: Relay)
    ensures r.connections == s.connections - {connId}
    ensures r.subscribedChannels == s.subscribedChannels && r.listeners == s.listeners
    ensures r.roomOwners == (if roomId in s.roomMembers && roomId !in r.roomMembers then s.roomOwners - {roomId} else s.roomOwners)
    ensures roomId in s.roomMembers && roomId !in r.roomMembers
            <==> roomId in s.roomMembers && s.roomMembers[roomId] <= {connId} && projectOwner == Some(userId)
    ensures roomId !in s.roomMembers ==> roomId !in r.roomMembers
    ensures roomId in r.roomMembers ==> r.roomMembers[roomId] == s.roomMembers[roomId] - {connId}
    ensures forall other :: other != roomId ==>
              (other in r.roomMembers <==> other in s.roomMembers)
              && (other in r.roomMembers ==> r.roomMembers[other] == s.roomMembers[other])
  {
    var conns := s.connections - {connId};
    var members := if roomId in s.roomMembers then s.roomMembers[roomId := s.roomMembers[roomId] - {connId}] else s.roomMembers;
    var isRoomEmpty := roomId in members && members[roomId] == {};
    if isRoomEmpty && projectOwner == Some(userId) then
      s.(connections := conns, roomMembers := members - {roomId}, roomOwners := s.roomOwners - {roomId})
    else
      s.(connections := conns, roomMembers := members)
  }
}
