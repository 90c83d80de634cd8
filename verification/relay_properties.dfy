/** Properties of the relay across events: the registry invariant every
    handler keeps, what a new connection is told, and how the
    publish/subscribe bridge delivers (including its duplicates and its
    cross-room leak). */
module RelayProperties {
  import opened Base
  import opened Jwt
  import opened Wire
  import opened Relay
  import GuestTokenRoute

  /** A registered connection sits in the member set of its one room. */
  ghost predicate Registered(s: Relay, c: ConnId)
    requires c in s.connections
  {
    var k := s.connections[c];
    && k.connectionId == c
    && |k.rooms| == 1
    && k.rooms[0] in s.roomMembers
    && c in s.roomMembers[k.rooms[0]]
  }

  /** The channels named by a list of listener rooms. */
  ghost function ChannelsOf(ls: seq<RoomId>): set<string> {
    set r | r in ls :: Channel(r)
  }

  /** The registry invariant of one relay process. */
  ghost predicate Wf(s: Relay) {
    && (forall c | c in s.connections :: Registered(s, c))
    && (forall r, c | r in s.roomMembers && c in s.roomMembers[r] ::
          c in s.connections && s.connections[c].rooms == [r])
    && s.roomOwners == map[]
    && (forall i, j | 0 <= i < j < |s.listeners| :: s.listeners[i] != s.listeners[j])
    && s.subscribedChannels == ChannelsOf(s.listeners)
    && (forall r | r in s.roomMembers :: r in s.listeners)
  }

  lemma InitialWf()
    ensures Wf(Initial)
  {
  }

  /** Registering a fresh connection in room `rid`, as admission does,
      keeps the invariant. */
  lemma RegisterPreservesWf(s: Relay, t: Relay, c0: ConnId, k: Connection, rid: RoomId)
    requires Wf(s) && c0 !in s.connections
    requires k.connectionId == c0 && k.rooms == [rid]
    requires t.connections == s.connections[c0 := k]
    requires t.roomMembers == s.roomMembers[rid := Members(s, rid) + {c0}]
    requires t.roomOwners == s.roomOwners
    requires t.subscribedChannels == s.subscribedChannels + {Channel(rid)}
    requires t.listeners == if Channel(rid) in s.subscribedChannels then s.listeners else s.listeners + [rid]
    ensures Wf(t)
  {
    forall c | c in t.connections
      ensures Registered(t, c)
    {
      if c != c0 {
        assert Registered(s, c);
      }
    }
    forall r, c | r in t.roomMembers && c in t.roomMembers[r]
      ensures c in t.connections && t.connections[c].rooms == [r]
    {
      if c != c0 {
        assert r in s.roomMembers && c in s.roomMembers[r];
      }
    }
    if Channel(rid) !in s.subscribedChannels {
      assert rid !in s.listeners;
      ListenersExtend(s.listeners, rid);
    } else {
      var x :| x in s.listeners && Channel(x) == Channel(rid);
      ChannelInjective(x, rid);
    }
  }

  lemma ListenersExtend(ls: seq<RoomId>, rid: RoomId)
    ensures ChannelsOf(ls + [rid]) == ChannelsOf(ls) + {Channel(rid)}
  {
    forall ch | ch in ChannelsOf(ls + [rid])
      ensures ch in ChannelsOf(ls) + {Channel(rid)}
    {
      var x :| x in ls + [rid] && Channel(x) == ch;
      if x != rid { assert x in ls; }
    }
    forall ch | ch in ChannelsOf(ls) + {Channel(rid)}
      ensures ch in ChannelsOf(ls + [rid])
    {
      if ch != Channel(rid) {
        var x :| x in ls && Channel(x) == ch;
        assert x in ls + [rid];
      } else {
        assert (ls + [rid])[|ls|] == rid;
      }
    }
  }

  /** Admission keeps the invariant; in particular `roomOwners` stays empty
      and at most one listener exists per channel. */
  lemma ConnectPreservesWf(
    s: Relay, roomId: Option<string>, token: Option<string>, verification: Verification,
    guestUuid: string, connUuid: ConnId, projectOwner: Option<string>)
    requires Wf(s) && connUuid !in s.connections
    ensures Wf(OnConnection(s, roomId, token, verification, guestUuid, connUuid, projectOwner).state)
  {
    var r := OnConnection(s, roomId, token, verification, guestUuid, connUuid, projectOwner);
    if r.admission.Admitted? {
      var rid := roomId.value;
      RegisterPreservesWf(s, r.state, connUuid, r.state.connections[connUuid], rid);
    }
  }

  /** Closing a registered connection, with the values its handler
      captured, keeps the invariant. */
  lemma ClosePreservesWf(s: Relay, connId: ConnId, projectOwner: Option<string>)
    requires Wf(s) && connId in s.connections
    ensures var k := s.connections[connId];
            Wf(OnClose(s, connId, k.rooms[0], k.userId, projectOwner))
  {
    var k := s.connections[connId];
    assert Registered(s, connId);
    var t := OnClose(s, connId, k.rooms[0], k.userId, projectOwner);
    forall c | c in t.connections
      ensures Registered(t, c)
    {
      assert Registered(s, c);
    }
  }

  /** The connection-ready notice: `isAuthenticated` is exactly the negation
      of `isGuest`, and `isOwner` holds exactly when the owner lookup
      returned the connection's user id, so never for a room without owner. */
  lemma ReadyNoticeFlags(
    s: Relay, roomId: Option<string>, token: Option<string>, verification: Verification,
    guestUuid: string, connUuid: ConnId, projectOwner: Option<string>)
    requires connUuid !in s.connections
    ensures var r := OnConnection(s, roomId, token, verification, guestUuid, connUuid, projectOwner);
            r.admission.Admitted? ==>
              var ready := r.admission.ready;
              var k := r.state.connections[connUuid];
              && ready.payload.Value? && ready.payload.value.RoleInfo?
              && ready.payload.value.isAuthenticated == !ready.payload.value.isGuest
              && ready.isGuest == Value(ready.payload.value.isGuest)
              && ready.isOwner == Value(k.isOwner)
              && (k.isOwner <==> projectOwner == Some(k.userId))
              && (k.isOwner ==> projectOwner.Some?)
              && HasKind(ready, ConnectionReady)
              && ready.connectionId == Value(connUuid)
  {
  }

  /** An admitted connection is registered with `rooms = [roomId]` and is a
      member of exactly that room. */
  lemma AdmissionRegisters(
    s: Relay, roomId: Option<string>, token: Option<string>, verification: Verification,
    guestUuid: string, connUuid: ConnId, projectOwner: Option<string>)
    requires Wf(s) && connUuid !in s.connections
    ensures var r := OnConnection(s, roomId, token, verification, guestUuid, connUuid, projectOwner);
            r.admission.Admitted? ==>
              && r.state.connections[connUuid].rooms == [roomId.value]
              && connUuid in Members(r.state, roomId.value)
              && (forall other :: other != roomId.value ==> connUuid !in Members(r.state, other))
  {
  }

  /** Before admission a connection is in no registry, so no broadcast can
      reach it: the connection-ready notice is the first message it gets. */
  lemma NothingBeforeReady(s: Relay, connUuid: ConnId, roomId: RoomId, exclude: seq<ConnId>, open: set<ConnId>)
    requires connUuid !in s.connections
    ensures connUuid !in Recipients(s, roomId, exclude, open)
  {
  }

  /** At most one listener is registered per channel. */
  lemma OneListenerPerChannel(s: Relay, i: int, j: int)
    requires Wf(s)
    requires 0 <= i < |s.listeners| && 0 <= j < |s.listeners|
    requires Channel(s.listeners[i]) == Channel(s.listeners[j])
    ensures i == j
  {
    ChannelInjective(s.listeners[i], s.listeners[j]);
  }

  /** The handler for one inbound frame never looks at the kind: changing it
      changes neither who receives the message nor where it is published
      (beyond the kind carried inside the frame itself). */
  lemma MessageKindIgnored(s: Relay, roomId: RoomId, connId: ConnId, e: Envelope, kind: Field<string>, open: set<ConnId>)
    ensures var a := OnMessage(s, roomId, connId, Json(e), open);
            var b := OnMessage(s, roomId, connId, Json(e.(kind := kind)), open);
            && a.delivered == b.delivered
            && a.published.Some? && b.published.Some?
            && a.published.value.channel == b.published.value.channel
  {
  }

  /** Bridge delivery across processes: a message published on a room's
      channel reaches every open member of that room in any process whose
      registries satisfy the invariant, through that room's listener. */
  lemma CrossProcessDelivery(p: Relay, roomId: RoomId, m: ConnId, e: Envelope, open: set<ConnId>)
    requires Wf(p)
    requires m in Members(p, roomId) && m in open
    ensures exists i :: 0 <= i < |OnRedisMessage(p, Channel(roomId), Json(e), open)|
                     && m in OnRedisMessage(p, Channel(roomId), Json(e), open)[i]
  {
    assert roomId in p.listeners;
    var i :| 0 <= i < |p.listeners| && p.listeners[i] == roomId;
    assert Channel(roomId) in ChannelsOf(p.listeners);
    var d := OnRedisMessage(p, Channel(roomId), Json(e), open);
    assert d[i] == Recipients(p, roomId, [], open);
  }

  /** In the sender's own process the bridge echoes every message back to
      the whole room with no exclusion: the sender gets its own message, and
      every other open member gets it twice (once from the direct broadcast
      and once from the echo). */
  lemma SenderEchoAndDuplicate(s: Relay, roomId: RoomId, sender: ConnId, other: ConnId, e: Envelope, open: set<ConnId>)
    requires Wf(s)
    requires sender in Members(s, roomId) && sender in open
    requires other in Members(s, roomId) && other in open && other != sender
    ensures var out := OnMessage(s, roomId, sender, Json(e), open);
            && out.published == Some(Publication(Channel(roomId), Json(e)))
            && sender !in out.delivered
            && other in out.delivered
            && var echo := OnRedisMessage(s, out.published.value.channel, out.published.value.frame, open);
               exists i :: 0 <= i < |echo| && sender in echo[i] && other in echo[i]
  {
    assert roomId in s.listeners;
    var i :| 0 <= i < |s.listeners| && s.listeners[i] == roomId;
    assert Channel(roomId) in ChannelsOf(s.listeners);
    assert sender in s.connections && other in s.connections;
    var echo := OnRedisMessage(s, Channel(roomId), Json(e), open);
    assert echo[i] == Recipients(s, roomId, [], open);
  }

  /** Every listener re-broadcasts to its own captured room whatever channel
      the message came on, so traffic of one room leaks into every other
      room that has a listener in the same process. */
  lemma ListenerLeak(s: Relay, roomA: RoomId, roomB: RoomId, m: ConnId, e: Envelope, open: set<ConnId>)
    requires Wf(s)
    requires roomA != roomB && roomB in s.listeners
    requires m in Members(s, roomA) && m in open
    ensures exists i :: 0 <= i < |OnRedisMessage(s, Channel(roomB), Json(e), open)|
                     && m in OnRedisMessage(s, Channel(roomB), Json(e), open)[i]
  {
    assert roomA in s.listeners;
    var i :| 0 <= i < |s.listeners| && s.listeners[i] == roomA;
    assert Channel(roomB) in ChannelsOf(s.listeners);
    assert m in s.connections;
    var d := OnRedisMessage(s, Channel(roomB), Json(e), open);
    assert d[i] == Recipients(s, roomA, [], open);
  }

  /** When a non-owner is the last to leave, the room keeps an empty
      member set; when the owner the lookup reports is the last to leave,
      the room entry goes. */
  lemma EmptyRoomLingersUnlessOwnerLeaves(s: Relay, connId: ConnId, projectOwner: Option<string>)
    requires Wf(s) && connId in s.connections
    requires var k := s.connections[connId]; s.roomMembers[k.rooms[0]] == {connId}
    ensures var k := s.connections[connId];
            var t := OnClose(s, connId, k.rooms[0], k.userId, projectOwner);
            && (projectOwner != Some(k.userId) ==> k.rooms[0] in t.roomMembers && t.roomMembers[k.rooms[0]] == {})
            && (projectOwner == Some(k.userId) ==> k.rooms[0] !in t.roomMembers)
  {
    assert Registered(s, connId);
  }

  /** A guest token never authenticates at the relay: the route signs
      `userId`, the relay reads `id`. Whatever the secret and age, the
      holder is handled as an anonymous guest with a freshly drawn id. */
  lemma GuestTokenNeverAuthenticates(uuid: string, sameSecret: bool, ageSeconds: nat)
    ensures Authentication(Verify(GuestTokenRoute.IssueGuestToken(uuid).token, sameSecret, ageSeconds)).None?
  {
  }

  /** Consequently a guest-token holder is refused by every project room and
      elsewhere joins under a new guest id, not the one the route issued. */
  lemma GuestTokenHolderIsFreshGuest(
    s: Relay, roomId: Option<string>, token: string, uuid: string, sameSecret: bool, ageSeconds: nat,
    guestUuid: string, connUuid: ConnId, projectOwner: Option<string>)
    requires connUuid !in s.connections
    requires Truthy(roomId)
    ensures var v := Verify(GuestTokenRoute.IssueGuestToken(uuid).token, sameSecret, ageSeconds);
            var r := OnConnection(s, roomId, Some(token), v, guestUuid, connUuid, projectOwner);
            && (Truthy(projectOwner) ==> r.admission.Refused?)
            && (!Truthy(projectOwner) ==>
                  r.admission.Admitted? && r.state.connections[connUuid].userId == GuestPrefix + guestUuid)
  {
    GuestTokenNeverAuthenticates(uuid, sameSecret, ageSeconds);
  }
}
