# Stickey whiteboard: a Dafny model of its relay, client state machines and server actions

Stickey is a shared whiteboard. Participants draw on a canvas in a room and can start a video call. This project models, as pure functions over immutable values, the parts of the TypeScript code that decide who gets what and what changes:

- **The realtime relay** (`Relay`, `RelayProperties`). It does the following:
  - authenticates a socket's token;
  - admits the socket or closes it with 1008 (policy violation);
  - registers the connection in its room and sends the connection-ready notice;
  - broadcasts to the room;
  - bridges every room through a Redis publish/subscribe channel;
  - cleans up on close.

  Each socket event is one atomic step. The world outside enters as parameters:
  - the token-verification outcome;
  - the project-owner lookup;
  - the random UUIDs;
  - the set of sockets that are OPEN.
- **The wire vocabulary** (`Wire`, `Strokes`, `Jwt`). This covers:
  - the 14 message kinds and their names;
  - the message envelope, where every field is absent, `null` or a value, as in a JavaScript object;
  - the stroke type;
  - the sign-up form schema;
  - the claims of a JSON Web Token.
- **The browser side**:
  - the drawing hook's pointer-to-stroke machine, with rendering as a list of segments (`Canvas`);
  - the socket hook's status machine, message dispatch and guarded `send` (`SocketClient`);
  - the video hook's peer and contact bookkeeping and its signalling (`VideoPeers`);
  - the video panel's tiles, labels and controls (`VideoCall`);
  - the per-room stroke cache in `localStorage` (`WebStorage`, `LocalCache`);
  - the cache-or-fetch guest token (`GuestSession`);
  - the guest-token route (`GuestTokenRoute`).
- **The server actions and routes** over an abstract store of users, projects, shapes and bookmarks (`Store`, `Projects`, `ShapeRoute`, `StrokesRoute`, `Signup`). A `fault` flag says that the action's store call throws.

The model keeps the code's quirks and proves them as properties:

- The guest-token route signs `userId`, but the relay reads `id`. A guest token therefore never authenticates at the relay.
- The signalling envelope's kind, `WsDataType.SIGNAL`, is not in the enum, so the envelope goes out with no kind.
- Every Redis listener rebroadcasts every message to the room it captured, whatever the channel and with no exclusion. The sender gets its own message back, other members get it twice, and traffic leaks across rooms.
- An emptied room is deleted only when the leaver is the project owner.
- `roomOwners` is never written.
- The shape route stores a stroke under a database-generated id, while the stroke-delete route deletes by the stroke's own id.

The relay and the clients behave as follows in places where a reader might expect otherwise:

- The relay keeps no replay buffer: a late joiner gets no earlier messages.
- There is no video-enabled flag and no video announcement.
- The relay does not dispatch on the message kind; it relays signalling like any other message.
- `broadcast` skips sockets that are not OPEN but never removes them from the room.
- A room's entry survives emptying unless the owner leaves last.

## Model

| member | source | states |
|---|---|---|
| Base.OrStringNeverFalsy | apps/websocket/src/index.ts:104-105 | with a non-empty fallback, `a \|\| b` is always truthy, is either the fallback or the given value, and defaulting again changes nothing, so a defaulted name is never empty |
| Relay.Authentication | apps/websocket/src/index.ts:28-47 | null exactly when verification throws, decodes to a string, or has no truthy `id`; otherwise the `id` claim as user id and `name`, or "Guest" when it is falsy |
| Relay.ChannelInjective | apps/websocket/src/index.ts:148 | distinct rooms have distinct `room:` channels |
| Relay.Broadcast | apps/websocket/src/index.ts:70-79 | sends to exactly the members not excluded, still registered and OPEN; an unknown room gets nothing; no registry is changed, so members that are not OPEN stay |
| Relay.ResolveIdentity | apps/websocket/src/index.ts:100-105 | a verified token gives its id and name; anything else a fresh `guest-` id named "Guest"; `isAuthenticated` iff the user id does not start with `guest-` |
| Relay.OnConnection | apps/websocket/src/index.ts:95-163 | missing room id and an unverified socket for a project room are refused with 1008 and change nothing; otherwise (and only otherwise) the connection is registered with `rooms = [roomId]`, added to the member set, `roomOwners` untouched, the channel subscribed, a listener added only for a new channel, and the ready notice carries the owner, guest and authenticated flags |
| Relay.OnMessage | apps/websocket/src/index.ts:165-173 | a parseable frame is published on the room's channel and delivered to the room minus the sender; an unparseable one causes nothing |
| Relay.ListenerDeliveries | apps/websocket/src/index.ts:155-162 | each listener delivers to every OPEN member of its own captured room, with no exclusion, in registration order |
| Relay.OnRedisMessage | apps/websocket/src/index.ts:148-162 | a message on any subscribed channel goes to every listener; unsubscribed channels and unparseable messages reach nobody |
| Relay.OnClose | apps/websocket/src/index.ts:176-191 | removes the connection and its membership; the room entry (and its `roomOwners` entry) goes iff the set becomes empty and the owner lookup equals the leaver; other rooms, channels and listeners unchanged |
| RelayProperties.InitialWf | apps/websocket/src/index.ts:64-67 | the empty registries satisfy the registry invariant |
| RelayProperties.RegisterPreservesWf | apps/websocket/src/index.ts:121-131 | registering a fresh connection in one room keeps every connection in exactly its room, listeners duplicate-free and channels matching listeners |
| RelayProperties.ListenersExtend | apps/websocket/src/index.ts:151-155 | adding a listener adds exactly its channel to the subscribed set |
| RelayProperties.ConnectPreservesWf | apps/websocket/src/index.ts:95-163 | every connection event keeps the registry invariant, including `roomOwners` empty and one listener per channel |
| RelayProperties.ClosePreservesWf | apps/websocket/src/index.ts:176-191 | closing a registered connection keeps the registry invariant |
| RelayProperties.ReadyNoticeFlags | apps/websocket/src/index.ts:118-146 | in the ready notice `isAuthenticated == !isGuest`; `isOwner` iff the owner lookup equals the user id, so never without an owner; kind CONNECTION_READY and the new connection id |
| RelayProperties.AdmissionRegisters | apps/websocket/src/index.ts:121-131 | an admitted connection has `rooms = [roomId]` and is a member of that room and no other |
| RelayProperties.NothingBeforeReady | apps/websocket/src/index.ts:121-146 | a connection not yet registered is reached by no broadcast, so the ready notice is the first message it gets |
| RelayProperties.OneListenerPerChannel | apps/websocket/src/index.ts:148-163 | no two listeners share a channel |
| RelayProperties.MessageKindIgnored | apps/websocket/src/index.ts:165-173 | changing a message's kind changes neither its recipients nor its channel |
| RelayProperties.CrossProcessDelivery | apps/websocket/src/index.ts:155-162 | a message on room R's channel reaches every OPEN member of R in any process |
| RelayProperties.SenderEchoAndDuplicate | apps/websocket/src/index.ts:155-173 | the listener echo returns the sender's message to the sender and gives other members a second copy |
| RelayProperties.ListenerLeak | apps/websocket/src/index.ts:155-162 | a message on room B's channel reaches the members of room A whenever A has a listener in that process |
| RelayProperties.EmptyRoomLingersUnlessOwnerLeaves | apps/websocket/src/index.ts:180-190 | when the last member leaves, the room keeps an empty set unless the leaver is the owner, in which case the entry goes |
| RelayProperties.GuestTokenNeverAuthenticates | apps/web/app/api/guest-token/route.ts:9-20 | a guest token, at any age and with any secret, yields no identity at the relay, because it has no `id` claim |
| RelayProperties.GuestTokenHolderIsFreshGuest | apps/websocket/src/index.ts:100-115 | a guest-token holder is refused by project rooms and elsewhere joins under a new `guest-` id, not the issued one |
| Jwt.VerifyExpiryMonotone | apps/web/app/api/guest-token/route.ts:17-19 | a token that verifies at some age verified with the same claims at every earlier age; one that fails keeps failing; a wrong secret never verifies |
| Wire.Lookup | packages/types/src/index.ts:17-32 | a found kind is in the list and has the wire name sought; none found means no kind of the list has that name |
| Wire.IndexOf | packages/types/src/index.ts:17-32 | every kind has a position in the list of all kinds |
| Wire.KindsAreFourteen | packages/types/src/index.ts:17-32 | exactly 14 distinct kinds, covering the type |
| Wire.EncodeInjective | packages/types/src/index.ts:17-32 | distinct kinds have distinct wire names |
| Wire.DecodeEncode | packages/types/src/index.ts:17-32 | decoding a kind's name gives the kind back |
| Wire.DecodeOnlyNames | packages/types/src/index.ts:17-32 | a string decodes to a kind iff it is that kind's name |
| Wire.SignalIsNotAKind | packages/types/src/index.ts:17-32 | no kind is named `SIGNAL`, and `SIGNAL` decodes to nothing |
| Wire.IsWebSocketMessage | packages/types/src/index.ts:40-52 | a message of the declared type carries exactly one of the 14 kinds |
| Wire.ParseSignUpRoundTrip | packages/types/src/index.ts:3-7 | the schema accepts an input iff it carries some form whose email is well formed, and gives that very form back |
| GuestTokenRoute.IssueGuestToken | apps/web/app/api/guest-token/route.ts:7-22 | the guest id is `guest-` followed by the UUID; claims `userId` = guest id, `userName` "Guest", `isGuest` true, `isAuthenticated` false, no `id`; lifetime 10800 s; response id equals the claim |
| GuestTokenRoute.GuestIdsDistinct | apps/web/app/api/guest-token/route.ts:7 | distinct UUIDs give distinct guest ids |
| Canvas.ConfiguredStyleReachesStroke | apps/web/hooks/useCanvas.ts:22-100 | for every pen, a given colour and width are the style of each segment a move draws and of the stroke a mouse-up sends, and a given name is on the message |
| Canvas.DrawLine | apps/web/hooks/useCanvas.ts:30-49 | fewer than two points draw nothing; otherwise `n-1` segments, the i-th joining points i and i+1, in the given style |
| Canvas.DownStartsFreshGesture | apps/web/hooks/useCanvas.ts:51-100 | a mouse-down drops any earlier buffer: an immediate mouse-up sends a one-point stroke, and the next move draws exactly the segment from the down point |
| Canvas.MouseMove | apps/web/hooks/useCanvas.ts:56-66 | no effect when not drawing; otherwise appends the point and draws one segment from the previous last point |
| Canvas.MouseUp | apps/web/hooks/useCanvas.ts:68-100 | emits one valid DRAW message whose payload is a pencil stroke of the buffer with the configured style and author, and whose `id` is the stroke's; the pen is idle afterwards even if `send` throws |
| Canvas.DrawFromRemote | apps/web/hooks/useCanvas.ts:102-104 | a received stroke draws one segment per consecutive pair of its points, in its own style |
| Canvas.HandlersKeepPenInv | apps/web/hooks/useCanvas.ts:51-100 | every handler keeps the buffer non-empty exactly while drawing |
| Canvas.MoveDrawsOneSegment | apps/web/hooks/useCanvas.ts:56-66 | while drawing each move adds one point and one segment ending at it |
| Canvas.DrawLineCons | apps/web/hooks/useCanvas.ts:40-47 | drawing `[x, m] + rest` is the segment x-m followed by drawing `[m] + rest` |
| Canvas.MovesDrawTheBuffer | apps/web/hooks/useCanvas.ts:56-66 | a run of moves appends them all to the buffer and draws exactly what drawing the new part of the buffer draws |
| Canvas.GestureRendersLikeRemote | apps/web/hooks/useCanvas.ts:51-104 | a whole gesture draws locally exactly the segments every receiver draws from the emitted stroke |
| Canvas.DefaultsAndBareMouseUp | apps/web/hooks/useCanvas.ts:68-91 | with no colour or width given the stroke is "#23ab2b", width 2; a mouse-up with no prior down emits a stroke with no points |
| LocalCache.CacheKeyInjective | apps/web/lib/utils/localStorage.ts:3-17 | distinct rooms have distinct `strokes:` keys, and no cache key is the token key "jwt" |
| LocalCache.ReadList | apps/web/lib/utils/localStorage.ts:12 | an absent or empty item reads as the empty list; raw text is a parse failure |
| LocalCache.GetFromLocal | apps/web/lib/utils/localStorage.ts:10-13 | an uncached room reads as empty; a successful read returns exactly the list stored under the room's key, and depends on nothing but that key |
| LocalCache.SaveToLocal | apps/web/lib/utils/localStorage.ts:3-8 | reading the room afterwards gives the old list plus the stroke; every other key is unchanged |
| LocalCache.ClearLocal | apps/web/lib/utils/localStorage.ts:15-17 | the room then reads as empty; every other key is unchanged |
| LocalCache.OtherRoomsUntouched | apps/web/lib/utils/localStorage.ts:3-17 | saving to or clearing one room changes no other room's list and not the stored token |
| LocalCache.SaveAllThenGet | apps/web/lib/utils/localStorage.ts:3-13 | saving a sequence of strokes then reading gives the earlier list followed by exactly that sequence |
| LocalCache.NoDeduplication | apps/web/lib/utils/localStorage.ts:5-7 | saving the same stroke twice stores two copies |
| GuestSession.LoadGuestToken | apps/web/lib/utils/useGuestToken.tsx:8-31 | a stored token is reused with no fetch and no guest id; otherwise a fetched token is stored under "jwt" and sets token and id; a failed fetch leaves both null; loaded on every path |
| GuestSession.SecondRunReuses | apps/web/lib/utils/useGuestToken.tsx:9-20 | after a successful fetch the next mount reuses the token and does not fetch |
| SocketClient.ConnectGatesSend | apps/web/hooks/useSocket.ts:26-105 | with `shouldConnect` false, no run of frames or status event lets `send` write; once connected, `send` writes exactly while the socket is OPEN |
| SocketClient.OnSocketMessage | apps/web/hooks/useSocket.ts:39-68 | unparseable data is dropped; a ready notice sets the id (null when missing) and the owner, guest and authenticated flags (false when missing) and is not passed on; any other message is passed on unchanged |
| SocketClient.Send | apps/web/hooks/useSocket.ts:86-105 | writes iff the socket exists and is OPEN, and what it writes parses back to the message |
| SocketClient.ReceiveAllDeliversEachOnce | apps/web/hooks/useSocket.ts:39-68 | over any run of frames each non-ready message reaches `onMessage` exactly as often as it arrives; ready notices never do |
| SocketClient.ReceiveAllKeepsStatus | apps/web/hooks/useSocket.ts:33-79 | only the socket events move the status: any run of received frames leaves the status and the socket as they were |
| SocketClient.OnOpen | apps/web/hooks/useSocket.ts:33-37 | the status becomes open; the socket and the reported id and flags are kept |
| SocketClient.OnError | apps/web/hooks/useSocket.ts:70-73 | the status becomes error; the socket and the reported id and flags are kept |
| SocketClient.OnClose | apps/web/hooks/useSocket.ts:76-79 | the status becomes closed; the socket and the reported id and flags are kept |
| SocketClient.ReadyNoticeFromRelay | apps/web/hooks/useSocket.ts:45-59 | the relay's ready notice sets exactly the id and flags the relay sent |
| VideoPeers.SignalEnvelope | apps/web/hooks/useVideoWebRTC.ts:102-109 | the envelope has the own room, the recipient as `userId` and `from` = own id, and is not a valid message (no kind) |
| VideoPeers.EventsKeepStreamInv | apps/web/hooks/useVideoWebRTC.ts:17-100 | every event of the hook keeps "holds a stream" and "is streaming" in step |
| VideoPeers.StartThenStopRestores | apps/web/hooks/useVideoWebRTC.ts:17-36 | a second start changes nothing; a start then a stop gives back the state before the start, mute and camera flags included; streaming afterwards iff media was granted |
| VideoPeers.CreatePeerConnection | apps/web/hooks/useVideoWebRTC.ts:68-90 | afterwards the remote id has a peer; nothing else changes |
| VideoPeers.ConnectToUser | apps/web/hooks/useVideoWebRTC.ts:92-100 | nothing for the own id or a contacted id; otherwise the id is contacted, has a peer, and gets exactly one offer, and nothing else changes: other peers and the stream flags are kept |
| VideoPeers.IceCandidateReachesPeer | apps/web/hooks/useVideoWebRTC.ts:50-77 | a candidate A gathers for B is one envelope which, delivered to B, gives B a peer connection for A and makes B send nothing; no candidate sends nothing |
| VideoPeers.OnSignal | apps/web/hooks/useVideoWebRTC.ts:50-66 | without a truthy `from` and `data` nothing happens; otherwise `from` has a peer, an offer gets one answer to `from`, anything else sends nothing |
| VideoPeers.TogglesAreInvolutions | apps/web/hooks/useVideoWebRTC.ts:38-48 | toggling twice restores the state; each toggle leaves the other flag alone |
| VideoPeers.CreatePeerConnectionIdempotent | apps/web/hooks/useVideoWebRTC.ts:68-90 | creating a peer twice equals creating it once |
| VideoPeers.OnSignalIgnoresRecipient | apps/web/hooks/useVideoWebRTC.ts:50-66 | the envelope's recipient does not affect the outcome |
| VideoPeers.OfferAnsweredToSender | apps/web/hooks/useVideoWebRTC.ts:92-109 | B's reply to A's offer is one answer addressed to A |
| VideoPeers.ContactedOnlyGrows | apps/web/hooks/useVideoWebRTC.ts:92-94 | no event removes a contacted id |
| VideoCall.WithoutOwn | apps/web/app/components/VideoCall.tsx:68 | the filtered list holds exactly the peers other than the own id |
| VideoCall.Tiles | apps/web/app/components/VideoCall.tsx:68 | the open panel's tiles start with the own id and show exactly the own id and the peers' ids |
| VideoCall.WithoutOwnAppend | apps/web/app/components/VideoCall.tsx:68 | filtering distributes over concatenation, so order is kept |
| VideoCall.WithoutOwnCounts | apps/web/app/components/VideoCall.tsx:68 | only the own id's occurrences go; every other id keeps its count |
| VideoCall.WithoutOwnIdentity | apps/web/app/components/VideoCall.tsx:68 | without the own id among the peers, filtering changes nothing |
| VideoCall.TilesOwnFirstAndOnce | apps/web/app/components/VideoCall.tsx:68 | the tiles start with the own id, hold it once, and hold each other id as often as the peers do |
| VideoCall.Label | apps/web/app/components/VideoCall.tsx:78 | "You" iff the own id; otherwise "User " and at most five leading characters of the id |
| VideoCall.OnlyOwnTileMuted | apps/web/app/components/VideoCall.tsx:68-78 | exactly the first tile is muted and labelled "You" |
| VideoCall.ControlsExclusive | apps/web/app/components/VideoCall.tsx:65-116 | a closed panel shows no control; in an open one start and stop are never shown together, a non-owner sees neither, the owner exactly one, and mute and camera show iff streaming |
| VideoCall.ControlsFollowStream | apps/web/app/components/VideoCall.tsx:65-116 | with the panel open, the owner's granted start swaps start for stop, mute and camera, and stop swaps back; with it closed nothing is shown at any point |
| VideoCall.PanelShownIffEvenClicks | apps/web/app/components/VideoCall.tsx:59-65 | two clicks restore the panel; starting shown, it is shown exactly after an even number of clicks |
| Projects.AnonymousCannotWrite | apps/web/server/project.ts:50-233 | a session without a truthy user id changes nothing: create, delete, favourite and unfavourite all refuse it with the store unchanged, and the listing refuses it |
| Store.ShapesOf | apps/web/server/project.ts:85-88 | exactly the shapes of the project; none iff no shape has that project |
| Projects.SuccessSetsSessionCookie | apps/web/server/project.ts:11-48 | a successful join carries the session's own access token in an `accessToken` cookie lasting one week, httpOnly, path "/", lax; get sets the same cookie; a failed join sets none |
| Projects.Lookup | apps/web/server/project.ts:11-48 | failure, then unknown project, then no token (undefined, no cookie), then success with the cookie; a cookie is set iff it succeeds |
| Projects.JoinProject | apps/web/server/project.ts:11-48 | unknown project fails with no cookie; success iff a cookie is set, returning the stored project |
| Projects.GetProject | apps/web/server/project.ts:83-121 | as join, returning the project with exactly its shapes |
| Projects.CreateProject | apps/web/server/project.ts:50-81 | no user: "User not found" and no change; otherwise exactly one project added with the caller as admin and the title |
| Projects.DeleteProject | apps/web/server/project.ts:123-163 | unauthenticated, then unknown, then non-admin, each with its message and no change; an admin delete removes the project and exactly its shapes, nothing else |
| Projects.GetUserProjects | apps/web/server/project.ts:165-200 | exactly the caller's own projects, each with its title and `bookmarked` iff the caller's bookmark exists |
| Projects.OnFavorite | apps/web/server/project.ts:204-216 | throws without a user or when the bookmark exists, changing nothing; otherwise adds exactly that bookmark |
| Projects.OnUnFavorite | apps/web/server/project.ts:219-233 | throws without a user or when the bookmark is absent, changing nothing; otherwise removes exactly that bookmark |
| Projects.IsBookmarkedAgreesWithList | apps/web/server/project.ts:165-253 | for each of the caller's projects, `isBookmarked` with the caller's id answers the listing's `bookmarked` flag |
| Projects.FavoriteRoundTrip | apps/web/server/project.ts:204-253 | favourite then ask gives true; unfavourite then ask gives false; the pair restores the store |
| Projects.FavoriteTwiceThrows | apps/web/server/project.ts:210-215 | a second favourite of the same project throws and changes nothing |
| Projects.CreatedProjectListed | apps/web/server/project.ts:50-200 | a created project appears in its creator's list with its title |
| Projects.DeletedProjectIsGone | apps/web/server/project.ts:147-155 | after an admin delete, join and get report the project missing and it has no shapes |
| Projects.OnlyAdminDeletes | apps/web/server/project.ts:125-155 | if a delete changes the store, the caller was the project's admin |
| ShapeRoute.SaveShape | apps/web/app/api/shape/route.ts:6-33 | no session 401, then missing room or stroke 400, each with no change; success iff a session user and no fault, appending exactly one shape with the stroke, the session user and the room; any other answer leaves the store alone |
| ShapeRoute.SavedUnderSessionUser | apps/web/app/api/shape/route.ts:19-28 | the row's user is the session's, even when the stroke names another author |
| ShapeRoute.SavedShapeIsListed | apps/web/app/api/shape/route.ts:19-28 | a saved stroke is among its room's shapes |
| ShapeRoute.SaveKeepsIdsUnique | apps/web/app/api/shape/route.ts:19-26 | with a fresh row id, saving keeps shape ids unique |
| StrokesRoute.DeleteStroke | apps/web/app/api/strokes/route.ts:4-33 | unparseable body throws; missing room or stroke id 400; fault 500; each with no change; otherwise 200 "Stroke deleted" removing exactly the shapes with that id and room |
| StrokesRoute.DeleteIdempotent | apps/web/app/api/strokes/route.ts:15-26 | repeating a delete gives the same answer and the same store |
| StrokesRoute.DeleteKeepsIdsUnique | apps/web/app/api/strokes/route.ts:15-21 | a delete keeps shape ids unique |
| StrokesRoute.NothingMatchedStillDeleted | apps/web/app/api/strokes/route.ts:15-26 | a delete matching nothing still answers 200 and keeps every shape |
| StrokesRoute.DeleteByStrokeIdMissesSavedRow | apps/web/app/api/strokes/route.ts:16-21 | deleting by a stroke's id leaves the row the shape route saved for it, since that row has a generated id |
| Signup.SignUp | apps/web/server/signup.ts:8-49 | invalid input throws; a taken email answers "User already exist"; a failed insert answers the generic error; each with no change; otherwise exactly one user added with the email, name and `hash(password, 10)` |
| Signup.SignUpKeepsEmailsUnique | apps/web/server/signup.ts:18-36 | sign-ups keep emails unique among users |
| Signup.SecondSignUpRefused | apps/web/server/signup.ts:18-27 | registering an email again is refused and adds nobody |

## Left out

- Cryptography: signing, signature checks and password hashing are not modelled. Verification is an outcome passed in, and the hash is a function parameter.
- The database is not modelled. The store is plain maps, sets and sequences. Constraint violations other than the bookmark pair's uniqueness depend on the schema, which is not part of this model, and are covered by the `fault` flag.
- The owner lookup (`getProjectOwner`) is an input: null stands for "no project" and for any lookup failure.
- Socket, Redis and WebRTC transports, media devices, timing, and the interleaving of awaited calls are not modelled. Each handler is one atomic step. Redis delivery goes to every registered listener in the same step.
- The request URL check (apps/websocket/src/index.ts:83-87) is not modelled. It cannot fail for a parsed URL.
- The canvas and the DOM are not modelled. Drawing is a list of segments. The early return when the canvas has no 2D context is left out. Pointer coordinates and the stroke width, JavaScript numbers in the code, are integers; the width is only passed through, so nothing depends on this.
- JSON text is not modelled. A frame is either a parsed object or text that does not parse. The `JSON.stringify` of a stroke is the stroke itself.
- Request bodies are modelled only as objects or strings. A stroke sent as a non-object value is not modelled.
- Wire.WellFormedEmail approximates zod's email check: one `@`, a non-empty local part, and a dotted domain without `@`.
- Projects.Lookup, Projects.CreateProject and Projects.DeleteProject: the ZodError branches of the `catch` blocks are not modelled. Nothing in those actions validates with zod, so the branches cannot be reached.
- Projects.DeleteProject: `fault` means the first store call throws. A failure after the shapes are deleted but before the project is deleted is not modelled. Bookmarks of a deleted project are left as the code leaves them; whether the database removes them depends on the schema.
- ShapeRoute.SaveShape: a session whose user has no id is modelled as the 500 answer. The insert then lacks a required field.
- Signup.SignUp: a throwing duplicate-email lookup, which happens outside the `try`, is not modelled.
- GuestSession.StoredToken: a stroke list stored under "jwt" is treated as no token. No cache key equals "jwt" (LocalCache.CacheKeyInjective), so the model never produces that state.
- VideoPeers.OnSignal: setting descriptions and candidates on a peer connection is assumed to succeed. The descriptions themselves are opaque parameters.
- VideoPeers.ConnectToUser: `createOffer` and `setLocalDescription` are assumed to succeed. If either rejects, the code leaves the id contacted and its peer created but sends no offer; the model always sends the offer.
- Relay.OnConnection: the registries are plain JavaScript objects, modelled as maps. A room id that names an inherited property (`constructor`, `toString`, `__proto__`) makes the member-set lookup return a non-set, and the `.add` call throws. The handler then rejects with no ready notice and no message or close handler, and the `connections` entry is never removed. The model admits such a socket normally.
- Relay.ResolveIdentity: the `id` claim is modelled as a string. A non-string `id` makes `startsWith` throw in the code; the model cannot express such a claim.
- VideoPeers.CreatePeerConnection: the peer table is a plain object in the code. A remote id such as `constructor` finds an inherited function and no connection is created; the model treats every id as an ordinary key.
- VideoCall.Label: `slice(0, 5)` counts UTF-16 code units and the model counts characters, so the two differ only for ids outside the Basic Multilingual Plane.
- VideoCall.Tiles: the tiles are rendered only while the panel is shown (VideoCall.tsx:65); the model describes the open panel's tiles.
- The effect cleanup (`ws.close()`) and logging are not modelled. The cleanup runs on unmount and also whenever `roomId`, `token` or `shouldConnect` change and the effect re-runs; the old socket's `onclose` can then set the status to closed while the new socket is live. The model has one socket per client and no re-run.
