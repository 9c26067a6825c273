# ldr-photobooth room coordinator, modelled in Dafny

ldr-photobooth is a photo booth for two people in different places. Both join
a room by its code, pick a layout, take their shots on a synchronised
countdown, swap the photos peer to peer, and get one framed strip. This
project models the part of the system that coordinates the room, in five
groups:

- **The Cloudflare Worker.**
  - `Engine.RoomEngine` is the room state machine: participants in join
    order, `IDLE`/`SESSION`, and the chosen layout.
  - `RoomDO.RoomDurableObject` is the Durable Object. It keeps a registry
    of websocket sessions, checks the capacity of two named sessions, and
    relays session, signalling, photo and location messages. Sockets are
    ids with an open flag, and every send is an entry appended to an
    outbox.
  - `WorkerRouter.Route` is the HTTP router: CORS preflight, room-code
    validation, routing by the upper-cased code, health, root and 404.
  - `WorkerConstants` and `ServerConstants` hold the event vocabularies as
    datatypes.
- **The Node server.**
  - `Store.RoomStore` is the room map.
  - `Service.RoomService` holds the join, leave and session rules.
  - `Controllers.SocketServer` is the Socket.IO controller layer. `emit`,
    `to(x).emit` and `io.to(code).emit` become emits with an explicit
    recipient set.
  - `SocketRoutes` is the table that maps event names to handlers.
- **The browser's transports.**
  - `Listeners.Registry` is the listener registry shared by both adapters.
  - `Adapter.SocketAdapter` is the Socket.IO-shaped adapter over a native
    websocket. It has a queue of pending emits, connect guards and
    exponential backoff.
  - `Client.WebSocketClient` is the plain client, which drops emits while
    it is closed.
  - `WsCommon` holds the URL and backoff arithmetic.
- **Peer to peer.** `WebRtc` covers photo chunking over the data channel,
  the reassembly state machine and their byte-exact round trip. It also
  has the polite or ignore decision of perfect negotiation, peer choice
  and the socket fallback, on `WebRtc.PeerLink`.
- **The hooks.**
  - `RoomHook` covers join validation, the pause and resume rule on
    `room:joined`, room-code generation and adoption of the code from the
    URL.
  - `Frame` covers the preset list, the names and location texts written
    on the frame, the strip geometry, the merge cache keyed by the
    settings, and frame selection and reset.
  - `Layout` holds the constant tables.
  - `JsString` supplies JavaScript's string order, `trim`, and
    `toUpperCase` restricted to the ASCII letters. That restriction is exact
    for the worker's validated room codes, but not for arbitrary text (see
    "Left out").

JavaScript objects and maps whose insertion order is visible become a
`seq` of keys plus a `map`. JSON payloads are a `Json` datatype. Time, random
ids, the result of loading an image and everything else that comes from the
browser or the runtime are parameters of the operations. A foreign callback,
such as a socket opening, a timer firing or a data-channel message arriving,
is an `On…` or `Fire…` method of the object it calls into.

## Model

| member | source | states |
|---|---|---|
| WorkerConstants.Lookup | worker/src/constants.js:10-38 | a `type` string is recognised exactly when it is the name of an event, and then as that event |
| WorkerConstants.LookupName | worker/src/constants.js:10-38 | every event name is recognised as its own event |
| WorkerConstants.NamesDistinct | worker/src/constants.js:10-38 | no two events share a wire name |
| WorkerConstants.TransferNamesDiffer | worker/src/constants.js:32-33 | the inbound transfer-complete event and its relayed form have different names |
| Engine.RoomEngine.constructor | worker/src/engine/RoomEngine.js:10-14 | a new room has no participants, is idle and has no layout |
| Engine.RoomEngine.Join | worker/src/engine/RoomEngine.js:22-25 | join always succeeds, sets or overwrites the name, appends a new id to the join order and keeps a re-joining id in place |
| Engine.RoomEngine.Leave | worker/src/engine/RoomEngine.js:31-38 | leave removes only that participant; with fewer than two left the room is idle without a layout, otherwise state and layout are kept |
| Engine.RoomEngine.ParticipantCount | worker/src/engine/RoomEngine.js:53-55 | the count equals the length of the join order |
| Engine.RoomEngine.StartSession | worker/src/engine/RoomEngine.js:62-67 | a start succeeds if and only if the room was idle; a refusal changes nothing |
| Engine.RoomEngine.UpdateLayout | worker/src/engine/RoomEngine.js:74-78 | the layout changes if and only if the room is idle, and nothing else changes |
| Engine.RoomEngine.ResetSession | worker/src/engine/RoomEngine.js:84-88 | reset always succeeds: idle, no layout, same participants |
| Engine.RoomEngine.GetState | worker/src/engine/RoomEngine.js:94-100 | the snapshot lists exactly the participants, in join order and with their names, plus the state and layout |
| Engine.StartTwice | worker/src/engine/RoomEngine.js:62-67 | of two starts in a row the first succeeds and the second is refused, keeping the first layout |
| Engine.StartAlone | worker/src/engine/RoomEngine.js:62-67 | a room with at most one participant can still start a session |
| Engine.RejoinKeepsCount | worker/src/engine/RoomEngine.js:22-25 | re-joining under the same id keeps the count at one and takes the new name |
| WorkerRouter.Route | worker/src/index.js:14-98 | preflights get the CORS headers; a `/ws` request reaches a room if and only if its code is 1 to 20 ASCII letters or digits, and then under the upper-cased code; a missing or invalid code gets 400 with its message; unknown paths get 404 |
| WorkerRouter.CaseInsensitiveRooms | worker/src/index.js:41-53 | codes that differ only in letter case are routed to the same room object |
| RoomDO.Dispatch | worker/src/room-do.js:62-108 | only a string `type` naming a known event reaches a handler |
| RoomDO.DispatchByName | worker/src/room-do.js:69-104 | each inbound event reaches its own arm of the switch, and exactly the server-only events fall to `default` |
| RoomDO.RecipientsMeaning | worker/src/room-do.js:283-302 | a broadcast reaches a session if and only if it is registered, its socket is open and it is not the excluded one |
| RoomDO.Recipients | worker/src/room-do.js:283-302 | the sessions a broadcast reaches, in registration order: never more than are registered, and each of them registered, open and not the excluded one |
| RoomDO.RecipientsDistinct | worker/src/room-do.js:283-302 | no session receives the same broadcast twice |
| RoomDO.BroadcastStep | worker/src/room-do.js:297-301 | one turn of the broadcast loop sends to the next session exactly when it is open and not excluded |
| RoomDO.EnvelopesSnoc | worker/src/room-do.js:283-302 | sending to one more recipient adds one envelope at the end |
| RoomDO.Envelopes | worker/src/room-do.js:283-302 | one envelope per recipient, in the recipients' order, each with the same event and payload |
| RoomDO.ParticipantListMeaning | worker/src/room-do.js:250-254 | the participant list holds exactly the sessions with a truthy name, each with its own name |
| RoomDO.ParticipantList | worker/src/room-do.js:250-254 | `getParticipants`: the named sessions in registration order, never more than are registered |
| RoomDO.ParticipantListAppend | worker/src/room-do.js:250-254 | the list of a concatenation is the concatenation of the lists |
| RoomDO.ParticipantListFrame | worker/src/room-do.js:250-254 | changing a session that is not registered leaves the list unchanged |
| RoomDO.ParticipantListUpdate | worker/src/room-do.js:250-254 | renaming one session adds at most one participant |
| RoomDO.ParticipantListRemove | worker/src/room-do.js:250-254 | deleting a session never adds a participant |
| RoomDO.SameNamesSameList | worker/src/room-do.js:250-254 | changing anything except the names, such as a socket's state, leaves the list unchanged |
| RoomDO.Deliveries | worker/src/room-do.js:283-302 | the broadcast loop sends one envelope to each open, non-excluded session, in registration order |
| Common.ParticipantsJson | worker/src/room-do.js:253 | one `{ id, displayName }` object per participant, in order; the Node server sends its `room.participants` records in the same shape (server/src/sockets/controllers.js:48) |
| Common.SpreadWith | server/src/sockets/controllers.js:15-18 | the payload gains the named member with the given string and keeps every other member; it is `{ ...data, from: socket.id }` here, the worker's stamping of `from` and the adapter's `{ ...data, to: target }` (client/src/lib/SocketAdapter.js:245) |
| RoomDO.SignalPayload | worker/src/room-do.js:204-210 | the relayed signal has `from` set to the sender, no `to`, and every other member of the payload |
| RoomDO.SignalTarget | worker/src/room-do.js:204-205 | a signal is addressed to one session exactly when its `to` names a registered session |
| RoomDO.LayoutOf | worker/src/room-do.js:184 | the layout is a bare string payload, or else the payload's `layout` member, or else null |
| RoomDO.RegistryJoin | worker/src/room-do.js:113-139 | a join admitted below capacity keeps the registry invariant: the engine knows only registered sessions and at most two are named |
| RoomDO.RegistryLeave | worker/src/room-do.js:144-157 | removing a session from the registry and the engine keeps that invariant |
| RoomDO.RoomDurableObject.ActiveCount | worker/src/room-do.js:259-261 | the number of named sessions never exceeds two, and every one of them is an engine participant |
| RoomDO.RoomDurableObject.constructor | worker/src/room-do.js:12-17 | no sessions, nothing sent, and a fresh idle engine |
| RoomDO.RoomDurableObject.Fetch | worker/src/room-do.js:22-57 | a request that is not a WebSocket upgrade gets 426 and registers nothing; otherwise a new open, unnamed session is registered at the end of the order |
| RoomDO.RoomDurableObject.SetSocketOpen | worker/src/room-do.js:275-286 | a change of a socket's ready state touches only that session's open flag |
| RoomDO.RoomDurableObject.Send | worker/src/room-do.js:273-278 | a message is delivered only to a registered session whose socket is open |
| RoomDO.RoomDurableObject.BroadcastExcept | worker/src/room-do.js:283-302 | one envelope to every open session in registration order, skipping the excluded one |
| RoomDO.RoomDurableObject.BroadcastParticipants | worker/src/room-do.js:266-268 | `room:joined` with the current participant list, to every open session |
| RoomDO.RoomDurableObject.HandleJoin | worker/src/room-do.js:113-139 | an unknown session, or a `null` payload that cannot be destructured, changes nothing; a payload without `displayName` is admitted with a null name; with two already named only the requester gets `room:error`; otherwise the name is stored in the session and the engine, `room:joined` goes to all, then `room:ready` once two are named |
| RoomDO.RoomDurableObject.Admit | worker/src/room-do.js:125-138 | the accepting half of a join: the name is stored, and the joined and ready broadcasts follow |
| RoomDO.RoomDurableObject.Register | worker/src/room-do.js:125-126 | the session takes the name and the engine gains or renames the participant |
| RoomDO.RoomDurableObject.HandleDisconnect | worker/src/room-do.js:144-157 | the session leaves the registry and the engine, the engine is idle again once fewer than two remain, and the others hear `room:joined` when anyone is left |
| RoomDO.RoomDurableObject.AnnounceRemaining | worker/src/room-do.js:153-156 | `room:joined` goes out only when some session remains |
| RoomDO.RoomDurableObject.Unregister | worker/src/room-do.js:145-149 | only that session and participant are removed |
| RoomDO.RoomDurableObject.HandleLeave | worker/src/room-do.js:144-165 | a leave is a disconnect followed by `session:reset` to those who remain: the session leaves the registry and the engine, the engine is idle with no layout once fewer than two remain (otherwise state and layout are kept), the others hear `room:joined` if anyone is left, then `session:reset` |
| RoomDO.RoomDurableObject.HandleSessionStart | worker/src/room-do.js:170-178 | `session:start` is broadcast if and only if the room was idle, and afterwards the room is in session either way |
| RoomDO.RoomDurableObject.HandleSessionLayout | worker/src/room-do.js:183-189 | the layout is stored and broadcast if and only if the room is idle |
| RoomDO.RoomDurableObject.HandleSessionReset | worker/src/room-do.js:194-198 | the room is always idle again without a layout, and `session:reset` always goes to all |
| RoomDO.RoomDurableObject.HandleWebRtc | worker/src/room-do.js:203-212 | a null payload sends nothing; a registered target alone gets the signal; otherwise every other open session gets it |
| RoomDO.RoomDurableObject.RelayPhoto | worker/src/room-do.js:217-234 | photo messages go to every other open session under their relay name, with `from` forced to the sender |
| RoomDO.RoomDurableObject.HandleLocation | worker/src/room-do.js:239-243 | an update is broadcast to everyone, the sender included, if and only if `lat` is a number; a `from` already in the payload wins |
| RoomDO.RoomDurableObject.HandleMessage | worker/src/room-do.js:62-108 | an envelope that does not parse, or whose `type` is unknown, changes nothing; each known `type` has exactly the effect of its handler (join, leave, start, layout, reset, signalling, photo relays, location), including the registration order and the engine's join order its envelopes are addressed by: a join keeps the registration order and appends a newly admitted id to the engine's, a leave removes the id from both; only a join or a leave touches the registry, the participants or either order; every envelope keeps the object invariant (at most two named sessions, all known to the engine) |
| ServerConstants.Lookup | server/src/config/constants.js:25-54 | a `type` string is recognised exactly when it is the name of an event, and then as that event |
| ServerConstants.LookupName | server/src/config/constants.js:25-54 | every event name is recognised as its own event |
| ServerConstants.NamesDistinct | server/src/config/constants.js:25-54 | no two events share a wire name |
| ServerConstants.TransferNamesDiffer | server/src/config/constants.js:44-50 | transfer-complete is relayed under a different name, and the server has no `room:leave` event |
| Store.RoomStore.constructor | server/src/store/RoomStore.js:8-10 | the store starts empty |
| Store.RoomStore.GetRoom | server/src/store/RoomStore.js:17-19 | a room is found if and only if one is stored under the code, and it is that room |
| Store.RoomStore.SaveRoom | server/src/store/RoomStore.js:26-29 | the entry is created or overwritten, the call returns what is now stored, and every other code is untouched |
| Store.RoomStore.DeleteRoom | server/src/store/RoomStore.js:35-37 | the entry is gone, the result says whether it existed, and every other code is untouched |
| Store.RoomStore.GetAll | server/src/store/RoomStore.js:42-44 | the listing holds exactly the stored rooms |
| Service.RemoveMember | server/src/services/RoomService.js:64 | the filter keeps exactly the members with another id, and nothing changes when the id is absent |
| Service.RemoveMemberAt | server/src/services/RoomService.js:64 | with distinct ids, leaving removes exactly the one matching entry and keeps the others in order |
| Service.RemoveKeepsDistinct | server/src/services/RoomService.js:64 | leaving keeps the ids distinct |
| Service.DistinctIdsSnoc | server/src/services/RoomService.js:31-46 | appending a participant whose id is new keeps the ids distinct |
| Service.RoomService.constructor | server/src/services/RoomService.js:117 | the service starts over an empty store |
| Service.RoomService.JoinRoom | server/src/services/RoomService.js:17-51 | an unknown code creates an idle room without a layout holding the participant; a known id succeeds with no change, even in a full room; a third distinct participant is refused with the capacity message; anyone else is appended; every stored room keeps one or two participants with distinct ids |
| Service.RoomService.LeaveRoom | server/src/services/RoomService.js:59-74 | an unknown code gives null; otherwise the id is filtered out, a room left empty is deleted and any other room is stored with the rest, state and layout untouched |
| Service.RoomService.StartSession | server/src/services/RoomService.js:79-92 | null for an unknown room; a room not idle is refused with "Session already active"; an idle room enters a session and the layout is not stored |
| Service.RoomService.UpdateLayout | server/src/services/RoomService.js:97-104 | the layout is stored if and only if the room exists and is idle |
| Service.RoomService.ResetSession | server/src/services/RoomService.js:106-114 | an existing room is idle again without a layout; an unknown room gives false and nothing changes |
| Service.ThirdIsRefused | server/src/services/RoomService.js:31-46 | two distinct joins succeed, a third is refused, and the room keeps the first two in order |
| Service.StartTwiceRefused | server/src/services/RoomService.js:79-92 | a second start of the same room is refused |
| Service.LastLeaveDeletes | server/src/services/RoomService.js:66-70 | the last participant's leave deletes the room |
| SocketRoutes.SignalsKeepTheirNames | server/src/sockets/index.js:20-22 | exactly the three signalling events go to the WebRTC handler, and each is relayed as `webrtc:<tag>`, that is under its own name |
| SocketRoutes.RelayNames | server/src/sockets/index.js:10-30 | `photo:meta` is relayed as itself and `photo:transfer-complete` as `photo:transferred`; exactly the connection event and the server-only events have no per-socket handler |
| Common.StartPayload | server/src/sockets/controllers.js:75-78 | `session:start` carries `startTime = now + 1000` and the requested layout; the worker builds the same payload (worker/src/room-do.js:173-176) |
| Controllers.JoinCode | server/src/sockets/controllers.js:30-33 | the room code of a join is the payload's `code` when that is a string; other codes are outside the model (see "Left out") |
| Controllers.SocketServer.Members | server/src/sockets/controllers.js:15-48 | a Socket.IO room name reaches the connected socket with that id and every socket that joined that room, and no one else |
| Controllers.SocketServer.Targets | server/src/sockets/controllers.js:15 | `socket.to` with a list reaches exactly the sockets in some room the list names by a string, and a `to` that is neither a string nor a list reaches no socket |
| Controllers.SocketServer.ListedMembers | server/src/sockets/controllers.js:15 | a socket is addressed exactly when it is in a room named by a string of the list |
| Controllers.SocketServer.constructor | server/src/sockets/index.js:5-6 | no sockets, no rooms, nothing emitted, over the given service |
| Controllers.SocketServer.Connect | server/src/sockets/index.js:6-7 | a connection adds exactly one socket and emits nothing |
| Controllers.SocketServer.HandleJoin | server/src/sockets/controllers.js:30-55 | a refused join answers `room:error` to the requester alone and records nothing; an accepted one stores the room the service gives (new, unchanged for a member already in it, or with the joiner appended) and no other, puts the socket in that Socket.IO room only, records the code, sends `room:joined` to the room and `room:ready` once two are in; connections are unchanged |
| Controllers.SocketServer.Enter | server/src/sockets/controllers.js:42-54 | the socket joins the room and records the code, then the room hears who is in it |
| Controllers.SocketServer.Disconnect | server/src/sockets/controllers.js:57-67 | the socket leaves every Socket.IO room and its recorded code goes, while the other sockets keep theirs; without a truthy code nothing else happens; otherwise it leaves its service room, and the rest hear `room:joined` unless the room was deleted |
| Controllers.SocketServer.Detach | server/src/sockets/index.js:12 | the departed socket is removed from the connected set, from every room and from the recorded codes |
| Controllers.SocketServer.HandleSessionStart | server/src/sockets/controllers.js:69-80 | the room enters a session if and only if the socket's room exists and is idle; `session:start` then goes to the whole room unless the payload is null |
| Controllers.SocketServer.HandleSessionLayout | server/src/sockets/controllers.js:82-87 | the layout is stored and sent to the room if and only if the room exists and is idle |
| Controllers.SocketServer.HandleSessionReset | server/src/sockets/controllers.js:89-94 | an existing room is reset and told so, without arguments; otherwise nothing happens |
| Controllers.SocketServer.HandleWebRtc | server/src/sockets/controllers.js:11-20 | a signal is relayed only when `to` is truthy, to the sockets of the room or rooms `to` names other than the sender, with `from` added; there is no fallback |
| Controllers.SocketServer.HandlePhotoSend | server/src/sockets/controllers.js:103-109 | with a room, every other socket in it gets `photo:receive` with `from` set to the sender |
| Controllers.SocketServer.HandleLocation | server/src/sockets/controllers.js:111-116 | with a room and a numeric `lat`, the whole room, the sender included, gets the update; a `from` in the payload wins |
| Controllers.SocketServer.HandleGenericRelay | server/src/sockets/controllers.js:120-125 | with a room, the payload goes unchanged to every other socket in it |
| Controllers.SocketServer.Receive | server/src/sockets/index.js:6-31 | an event with no registered handler changes nothing; each registered event has exactly the effect of the handler the table names (join, disconnect, session events, signalling, photo send, generic relays, location), a disconnect also taking the socket out of every Socket.IO room its emit is addressed through; only a join or a disconnect moves sockets, and only those and the session events change the store; every event keeps the service invariant |
| Listeners.IndexOf | client/src/lib/SocketAdapter.js:188 | the index found is that of the first occurrence of the handler, and none is found exactly when it is absent |
| Listeners.RemoveFirst | client/src/lib/SocketAdapter.js:187-189 | an absent handler changes nothing; otherwise exactly its first occurrence is cut out |
| Listeners.RemoveFirstMultiset | client/src/lib/SocketAdapter.js:187-189 | only one copy goes: a handler registered twice is still registered once |
| Listeners.OnThenOff | client/src/lib/SocketAdapter.js:172-192 | `on` then `off` of a handler that was not registered restores the list exactly |
| Listeners.OnThenOffRegistered | client/src/lib/SocketAdapter.js:172-192 | for a handler registered already, `on` then `off` rotates it to the end instead of restoring the list |
| Listeners.Registry.constructor | client/src/lib/SocketAdapter.js:32 | no event has handlers |
| Listeners.Registry.Handlers | client/src/lib/SocketAdapter.js:159 | the registered list, or the empty list for an event never registered |
| Listeners.Registry.On | client/src/lib/SocketAdapter.js:172-178 | the handler goes last in its event's list, which is created if needed; no other event changes |
| Listeners.Registry.Off | client/src/lib/SocketAdapter.js:183-192 | without a handler the whole entry goes; with one, its first occurrence goes; an unknown event or handler changes nothing; no other event changes |
| Listeners.Registry.Dispatch | client/src/lib/SocketAdapter.js:158-167 | every handler of the event is called in registration order even when some throw, and the ones that threw are exactly the throwing ones called |
| WsCommon.DropParam | client/src/lib/SocketAdapter.js:96 | no pair under the key is left, and every other key reads as before |
| WsCommon.SetParam | client/src/lib/SocketAdapter.js:96 | the key reads as the new value afterwards, and every other key reads as before |
| WsCommon.BuildWsUrl | client/src/lib/SocketAdapter.js:92-98 | `https:` becomes `wss:` and any other protocol `ws:`; the host is kept, the path is `/ws`, `room` is the code and the other parameters read as before |
| WsCommon.BuiltUrlReachesRoom | client/src/lib/SocketAdapter.js:92-98 | the URL the client builds for a valid code reaches the worker room named by the upper-cased code, and an invalid code is refused with 400 |
| WsCommon.ScaledIsProduct | client/src/lib/SocketAdapter.js:274-277 | doubling the base n times is `base * 2^n` |
| WsCommon.BackoffBounds | client/src/lib/SocketAdapter.js:274-277 | the wait is `base * 2^attempts` capped at 30000 ms |
| WsCommon.Backoff | client/src/lib/SocketAdapter.js:274-277 | the wait never exceeds 30000 ms nor the doubled base |
| WsCommon.BackoffMonotone | client/src/lib/SocketAdapter.js:274-277 | a later attempt never waits less than an earlier one |
| WsCommon.DefaultSchedule | client/src/lib/SocketAdapter.js:274-277 | with the default base the waits are 1, 2, 4, 8 and 16 seconds, then 30 seconds from the sixth attempt on |
| Adapter.ParamText | client/src/lib/SocketAdapter.js:96 | `String(code)` as `searchParams.set` writes it: a string is itself, and an empty array is empty |
| Adapter.ParamTextSingleton | client/src/lib/SocketAdapter.js:96 | a one-element array is written as its element, or as "" for `null` |
| Adapter.ItemsTextAppend | client/src/lib/SocketAdapter.js:96 | an array is written as its parts with a comma between them |
| Adapter.IsConnectingJoin | client/src/lib/SocketAdapter.js:200 | only a `room:join` whose data is an object with a `code` member can open the connection |
| Adapter.SocketAdapter.Connected | client/src/lib/SocketAdapter.js:54-56 | `connected` implies an open current socket, a raised flag and an id |
| Adapter.SocketAdapter.constructor | client/src/lib/SocketAdapter.js:20-42 | each option left out takes its default (reconnection on, 5 attempts, 1000 ms base); no socket, no code, no queue, no listeners |
| Adapter.SocketAdapter.EmitLocal | client/src/lib/SocketAdapter.js:158-167 | the handlers registered for the event, in registration order, receive the data |
| Adapter.SocketAdapter.ScheduleReconnect | client/src/lib/SocketAdapter.js:266-285 | a timer with the capped backoff is set if and only if there is a truthy room code and attempts remain |
| Adapter.SocketAdapter.Connect | client/src/lib/SocketAdapter.js:62-87 | nothing happens while a socket is open or a connect is under way; otherwise the code is recorded and a socket opens on the URL for it, or, when the WebSocket constructor throws, listeners hear `connect_error` and a retry is scheduled |
| Adapter.SocketAdapter.StartConnect | client/src/lib/SocketAdapter.js:71-86 | past the guards: the code is recorded and the new socket is connecting, or the failure is reported and retried |
| Adapter.SocketAdapter.ConnectFailed | client/src/lib/SocketAdapter.js:81-86 | `connect_error` with the message, then a retry if attempts remain |
| Adapter.SocketAdapter.Send | client/src/lib/SocketAdapter.js:221-226 | a message reaches the wire if and only if the socket is open |
| Adapter.SocketAdapter.Emit | client/src/lib/SocketAdapter.js:198-216 | a join with a truthy code is queued, even on an open socket; on a socket neither open nor opening it records the code and opens a socket on that room's URL, or, when the constructor throws, reports `connect_error` and arms a retry while attempts remain; on an open or opening socket the connect changes nothing; any other emit is queued while the socket is not open and sent when it is, and leaves the socket, the code, the flags and the timers as they were; the attempt count, the connected flag and the id never change |
| Adapter.SocketAdapter.EmitCorrected | client/src/lib/SocketAdapter.js:198-216 | every emit, a join included, goes to the wire at once on an open socket and is queued otherwise |
| Adapter.SocketAdapter.EmitTo | client/src/lib/SocketAdapter.js:241-248 | sent at once with `to` added when the socket is open, dropped otherwise, never queued |
| Adapter.SocketAdapter.Flush | client/src/lib/SocketAdapter.js:116-119 | the queue is empty afterwards; it went to the wire in first-in first-out order when the current socket is open, and is lost when it is not |
| Adapter.SocketAdapter.OnOpen | client/src/lib/SocketAdapter.js:104-120 | for any socket that opens: the flag raised, attempts back to zero, a new id, listeners hear `connect` and the queue emptied; only the current socket becomes open, and the queue reaches the wire only when the current socket is open |
| Adapter.SocketAdapter.MarkOpen | client/src/lib/SocketAdapter.js:106-111 | the flags, attempts and id of an open event before any listener runs, and the current socket open when it is the one that opened |
| Adapter.SocketAdapter.OnClose | client/src/lib/SocketAdapter.js:122-131 | not connected and not connecting; only the current socket becomes CLOSED, so a late close of a dropped socket leaves the current one alone; listeners hear `disconnect` with the reason or "Connection closed"; a retry is scheduled if and only if the close was not asked for, reconnection is on, there is a code and attempts remain |
| Adapter.SocketAdapter.OnError | client/src/lib/SocketAdapter.js:133-136 | listeners hear `connect_error` with "WebSocket error" and nothing else changes |
| Adapter.SocketAdapter.OnMessage | client/src/lib/SocketAdapter.js:138-153 | a frame that parses goes to the listeners of its `type`; one that does not is dropped |
| Adapter.SocketAdapter.FireReconnect | client/src/lib/SocketAdapter.js:281-284 | the oldest timer fires and is gone: one more attempt is counted; on an open or opening socket nothing else changes; otherwise a socket opens for the recorded code, or, when the constructor throws, `connect_error` is reported and another timer armed while attempts remain |
| Adapter.SocketAdapter.Disconnect | client/src/lib/SocketAdapter.js:253-261 | the close is marked as asked for, the adapter is not connected and the socket is dropped; timers already set stay |
| Adapter.SocketAdapter.DisconnectCorrected | client/src/lib/SocketAdapter.js:253-261 | as above, and no reconnect timer is left |
| Adapter.SocketAdapter.On | client/src/lib/SocketAdapter.js:172-178 | the handler is added at the end of that event's list and no other event's list changes |
| Adapter.SocketAdapter.Off | client/src/lib/SocketAdapter.js:183-192 | without a handler the event's list is emptied; with one, its first occurrence is removed; no other event's list changes |
| Adapter.RejoinWhileOpenIsStuck | client/src/lib/SocketAdapter.js:198-205 | a join on an already open socket is queued and reaches no wire, and the socket stays the same open one |
| Adapter.RejoinWhileOpenIsSent | client/src/lib/SocketAdapter.js:198-216 | with the corrected emit that join reaches the wire at once |
| Adapter.DisconnectThenTimerReconnects | client/src/lib/SocketAdapter.js:253-284 | a timer set before `disconnect` still fires and opens a new socket, with the manual-close mark reset |
| Adapter.CorrectedDisconnectStaysDown | client/src/lib/SocketAdapter.js:253-261 | with the corrected `disconnect` no timer is left and the following close schedules none |
| Adapter.LateCloseOpensAnotherSocket | client/src/lib/SocketAdapter.js:122-131 | after `disconnect` and a new join, the dropped socket's late close clears `isConnecting` and arms a retry, whose timer opens a third socket while the second is still connecting; the join waits in the queue |
| Adapter.LateOpenLosesJoin | client/src/lib/SocketAdapter.js:104-120 | the second socket's late open raises the flag while the adapter is not connected and drops the queued join; the adapter ends connected with the join never sent |
| Client.WebSocketClient.constructor | client/src/lib/WebSocketClient.js:13-29 | each option left out takes its default (reconnection on, 10 attempts, 1000 ms base); no socket, no code, no listeners |
| Client.WebSocketClient.EmitLocal | client/src/lib/WebSocketClient.js:134-143 | the handlers registered for the event, in registration order, receive the data |
| Client.WebSocketClient.ScheduleReconnect | client/src/lib/WebSocketClient.js:201-218 | a timer with the capped backoff is set if and only if attempts remain; the room code is not checked |
| Client.WebSocketClient.Connect | client/src/lib/WebSocketClient.js:42-70 | nothing happens while a socket is open or a connect is under way; otherwise the code is recorded and a socket opens on the URL for it, or the failure is reported and retried |
| Client.WebSocketClient.StartConnect | client/src/lib/WebSocketClient.js:53-69 | past the guards: the code is recorded and the new socket is connecting, or `connect_error` is reported and a retry scheduled |
| Client.WebSocketClient.Emit | client/src/lib/WebSocketClient.js:177-185 | sent if and only if the socket is open; there is no queue |
| Client.WebSocketClient.OnOpen | client/src/lib/WebSocketClient.js:88-97 | for any socket that opens: `isConnecting` cleared, attempts back to zero, a new id, listeners hear `connect`; only the current socket becomes open |
| Client.WebSocketClient.OnClose | client/src/lib/WebSocketClient.js:99-107 | not connecting; only the current socket becomes CLOSED, so a late close of a dropped socket leaves the current one alone; listeners hear `disconnect` with the reason or "Connection closed"; a retry is scheduled if and only if the close was not asked for, reconnection is on and attempts remain |
| Client.WebSocketClient.OnError | client/src/lib/WebSocketClient.js:109-112 | listeners hear `connect_error` with "WebSocket error" |
| Client.WebSocketClient.OnMessage | client/src/lib/WebSocketClient.js:114-129 | a frame that parses goes to the listeners of its `type`; one that does not is dropped |
| Client.WebSocketClient.FireReconnect | client/src/lib/WebSocketClient.js:214-217 | the oldest timer fires and is gone: one more attempt is counted; on an open or opening socket nothing else changes; otherwise a socket opens for the recorded code, or, when the constructor throws, `connect_error` is reported and another timer armed while attempts remain |
| Client.WebSocketClient.Disconnect | client/src/lib/WebSocketClient.js:190-196 | the close is marked as asked for and the socket is dropped; timers already set stay |
| Client.WebSocketClient.DisconnectCorrected | client/src/lib/WebSocketClient.js:190-196 | as above, and no reconnect timer is left |
| Client.WebSocketClient.On | client/src/lib/WebSocketClient.js:150-155 | the handler is added at the end of that event's list and no other list changes |
| Client.WebSocketClient.Off | client/src/lib/WebSocketClient.js:162-170 | without a handler the event's list is emptied; with one, its first occurrence is removed; no other list changes |
| Client.EmitBeforeOpenIsLost | client/src/lib/WebSocketClient.js:177-181 | an emit made while the socket is still connecting never reaches the wire, even after the socket opens |
| Client.DisconnectThenTimerReconnects | client/src/lib/WebSocketClient.js:190-217 | a timer set before `disconnect` still fires and opens a new socket, with the manual-close mark reset |
| Client.CorrectedDisconnectStaysDown | client/src/lib/WebSocketClient.js:190-196 | with the corrected `disconnect` no timer is left and the following close schedules none |
| Client.LateOpenOpensFourthSocket | client/src/lib/WebSocketClient.js:88-97 | a late open of a socket that is no longer current clears `isConnecting` while the current socket still connects, so the next `connect` opens a fourth socket |
| WebRtc.IndexOrZero | client/app/hooks/useWebRTC.js:41 | a truthy index is kept and any other becomes 0 |
| WebRtc.ChunksConcat | client/app/hooks/useWebRTC.js:95-103 | the chunks the send loop cuts, put back together, are exactly the photo's bytes |
| WebRtc.ChunksBounded | client/app/hooks/useWebRTC.js:95-103 | every chunk is non-empty and at most the chunk size |
| WebRtc.Chunks | client/app/hooks/useWebRTC.js:95-103 | the send loop's slices: no more chunks than bytes, and none exactly when there are no bytes |
| WebRtc.Framing | client/app/hooks/useWebRTC.js:86-104 | the channel messages of one photo: `meta` with the photo's size first, `done` with the file id last, and only binary chunks between |
| WebRtc.ChunkLoopStep | client/app/hooks/useWebRTC.js:96-103 | one turn of the send loop sends the next chunk and advances the offset by its length |
| WebRtc.AsBinary | client/app/hooks/useWebRTC.js:101 | each chunk goes out as one binary message, in order |
| WebRtc.Step | client/app/hooks/useWebRTC.js:27-49 | `meta` starts a new buffer, a binary chunk is kept, `done` delivers the kept bytes with the MIME type and `index or 0` only when a `meta` was seen, and other strings do nothing |
| WebRtc.RunBinaries | client/app/hooks/useWebRTC.js:46-48 | a run of chunks only appends them to the buffer and delivers nothing |
| WebRtc.RunAppend | client/app/hooks/useWebRTC.js:27-49 | receiving two runs of messages one after the other is receiving their concatenation |
| WebRtc.Run | client/app/hooks/useWebRTC.js:27-49 | a run of messages delivers at most one photo per message |
| WebRtc.PhotoRoundTrip | client/app/hooks/useWebRTC.js:27-106 | whatever the receiver held before, the sender's framing of a photo delivers exactly that photo, byte for byte, with its MIME type and `index or 0`, and nothing else |
| WebRtc.ChannelReceiver.constructor | client/app/hooks/useWebRTC.js:15 | an empty buffer without `meta`, nothing delivered, and whether the hook was given `onDataChannelMessage` |
| WebRtc.ChannelReceiver.Feed | client/app/hooks/useWebRTC.js:27-49 | each message moves the receiver as the step function says; a delivery is recorded only when `onDataChannelMessage` is a function |
| WebRtc.ExactlyOnePolite | client/app/hooks/useWebRTC.js:133-137 | of two peers with different ids exactly one is polite, so offer collisions are always resolved; with equal ids neither is |
| WebRtc.PickPeer | client/app/hooks/useWebRTC.js:177-178 | the peer is the first participant whose id is not one's own, and there is none exactly when every id is one's own |
| WebRtc.PeerLink.constructor | client/app/hooks/useWebRTC.js:10-15 | no connection, no channel, no flags set, nothing sent |
| WebRtc.PeerLink.GetOrCreatePC | client/app/hooks/useWebRTC.js:57-80 | the existing connection while there is one, else a new one for the remote id |
| WebRtc.PeerLink.EnableSocketFallback | client/app/hooks/useWebRTC.js:114-128 | socket-only from now on, both refs cleared, and the listener told the reason when there is one |
| WebRtc.PeerLink.OnDataChannel | client/app/hooks/useWebRTC.js:51-68 | the remote side's channel becomes the data channel |
| WebRtc.PeerLink.OnIceCandidate | client/app/hooks/useWebRTC.js:64-66 | a candidate goes to the remote id of its connection |
| WebRtc.PeerLink.OnConnectionState | client/app/hooks/useWebRTC.js:70-76 | a failed, disconnected or closed connection falls back to the socket; any other state changes nothing here |
| WebRtc.PeerLink.SendPhoto | client/app/hooks/useWebRTC.js:82-112 | the photo goes over the channel, as `meta`, the chunks and `done`, if and only if not socket-only and the channel is open; otherwise it goes through the socket callback if and only if there is one |
| WebRtc.PeerLink.SendChunks | client/app/hooks/useWebRTC.js:95-103 | the send loop sends exactly the chunks of the photo, in order |
| WebRtc.PeerLink.HandleOffer | client/app/hooks/useWebRTC.js:130-146 | the existing connection is kept, or one is made for the sender; an offer is ignored if and only if this side is impolite and there is a collision; otherwise an answer goes back to the sender unless setting the descriptions or creating the answer fails, when nothing is sent |
| WebRtc.PeerLink.HandleAnswer | client/app/hooks/useWebRTC.js:148-158 | an answer is applied if and only if a connection exists, its last offer was not ignored, it is not stable and applying succeeds; a failure falls back to the socket with `answer-error`; otherwise nothing changes |
| WebRtc.PeerLink.HandleCandidate | client/app/hooks/useWebRTC.js:160-169 | a candidate is added if and only if a connection exists and adding succeeds; a failure falls back to the socket with `candidate-error`; otherwise nothing changes |
| WebRtc.IgnoredOfferBlocksAnswer | client/app/hooks/useWebRTC.js:130-158 | on the impolite side of a collision the offer is ignored and nothing is signalled, and the answer after it is never applied and never causes a fallback |
| WebRtc.AcceptedOfferTakesAnswer | client/app/hooks/useWebRTC.js:130-158 | once an offer is taken, the answer goes back unless processing the offer failed, and the next incoming answer is applied exactly when the connection is not stable and applying succeeds |
| WebRtc.PeerLink.ConnectPeers | client/app/hooks/useWebRTC.js:171-195 | socket-only mode falls back and signals nothing; without another participant nothing changes; otherwise the existing connection, or a new one for the first other participant, gets `ldr-channel` and an offer to that participant is being made; the ignore flag, the signals and the channel messages never change |
| WebRtc.PeerLink.OfferReady | client/app/hooks/useWebRTC.js:185-190 | the offer goes to the chosen peer and the making-offer flag drops |
| WebRtc.PeerLink.OfferFailed | client/app/hooks/useWebRTC.js:191-194 | a failed `createOffer` or `setLocalDescription` lowers the making-offer flag and sends no offer |
| WebRtc.FailedOfferThenAnswer | client/app/hooks/useWebRTC.js:130-195 | after an offer that could not be made, the impolite side takes the peer's next offer on a stable connection and answers it, signalling nothing else |
| WebRtc.FallbackIsFinal | client/app/hooks/useWebRTC.js:83-123 | after a fallback no photo goes over the data channel, whatever the channel's state |
| RoomHook.CheckJoinMeaning | client/app/hooks/useRoom.js:110-120 | a name is refused if and only if it is nothing but white space; then an empty code is refused; otherwise the join goes ahead |
| RoomHook.CheckJoin | client/app/hooks/useRoom.js:110-120 | a join goes ahead only with a non-empty name and a non-empty code |
| RoomHook.LengthOf | client/app/hooks/useRoom.js:86-88 | `joined?.length` as `<` and `>=` compare it: an array's length, a string's, an object's numeric, `null` or boolean `length` converted to a number, and undefined for a missing payload or any other value |
| RoomHook.JoinedReaction | client/app/hooks/useRoom.js:86-90 | pause exactly when a pause callback exists, fewer than two are listed and the flow is capturing; otherwise resume exactly when a resume callback exists and two or more are listed |
| RoomHook.JoinedReactionOnList | client/app/hooks/useRoom.js:83-91 | with both callbacks, two or more participants resume, fewer pause during capture and do nothing at any other step, and a missing list does nothing |
| RoomHook.ParticipantsAfter | client/app/hooks/useRoom.js:84 | a truthy list is taken as received, anything else becomes the empty list |
| RoomHook.GeneratedCode | client/app/hooks/useRoom.js:147-149 | the generated code contains no dash and is already upper case |
| RoomHook.GeneratedCodeAccepted | client/app/hooks/useRoom.js:147-149 | a code made from a UUID is its first eight hex digits in upper case, and the worker routes it to the room of exactly that code |
| RoomHook.AdoptedCode | client/app/hooks/useRoom.js:230-236 | a non-empty `?code=` parameter is adopted in upper case; otherwise the current code stays |
| RoomHook.AdoptedCodeCaseInsensitive | client/app/hooks/useRoom.js:230-236 | link codes that differ only in case are adopted as the same code |
| RoomHook.RoomHookState.constructor | client/app/hooks/useRoom.js:14-57 | an empty list, no id, no name; the status says "Socket-only ready" in socket-only mode and "Disconnected" otherwise; a link code is adopted |
| RoomHook.RoomHookState.JoinRoom | client/app/hooks/useRoom.js:110-128 | succeeds if and only if the guards pass; a blank name raises the name alert; an empty code does nothing; otherwise the URL gets the code, one `room:join` with the code and name goes out, and the flow moves to the room |
| RoomHook.RoomHookState.SendJoin | client/app/hooks/useRoom.js:122-127 | the URL with the code is pushed, the join goes out and the flow is in the room |
| RoomHook.RoomHookState.LeaveRoom | client/app/hooks/useRoom.js:130-137 | `room:leave` is sent and the URL loses its code |
| RoomHook.RoomHookState.EmitLayout | client/app/hooks/useRoom.js:139-141 | the layout itself is the payload |
| RoomHook.RoomHookState.EmitSessionStart | client/app/hooks/useRoom.js:143-145 | the layout is sent wrapped as `{ layout }` |
| RoomHook.RoomHookState.GenerateRoomCode | client/app/hooks/useRoom.js:147-149 | the room code becomes the generated code |
| RoomHook.RoomHookState.OnConnect | client/app/hooks/useRoom.js:59-62 | connected, and the socket's id, or the empty string, is this user's id |
| RoomHook.RoomHookState.OnConnectError | client/app/hooks/useRoom.js:64-66 | the status carries the error message |
| RoomHook.RoomHookState.OnRoomError | client/app/hooks/useRoom.js:68-77 | the room-full alert, the status with the message, and back to the join step |
| RoomHook.RoomHookState.OnDisconnect | client/app/hooks/useRoom.js:79-81 | the status carries the reason |
| RoomHook.RoomHookState.OnRoomJoined | client/app/hooks/useRoom.js:83-91 | a null payload changes nothing; otherwise the list is replaced and exactly the callback the reaction names is called |
| RoomHook.RoomHookState.OnLocationUpdate | client/app/hooks/useRoom.js:93-97 | the payload is handed to the location callback if and only if there is one |
| RoomHook.LeaveAndReturnDuringCountdown | client/app/hooks/useRoom.js:83-91 | the partner leaving during the countdown pauses it and their return resumes it |
| RoomHook.LinkCodeAdopted | client/app/hooks/useRoom.js:230-236 | a non-empty link code is adopted upper-cased, and with a name that is not blank the join goes ahead |
| RoomHook.JoinFromLink | client/app/hooks/useRoom.js:110-128 | a code from an invitation link joins the room of the upper-cased code |
| JsString.LessIrreflexive | client/app/hooks/useWebRTC.js:133 | no id is smaller than itself |
| JsString.LessAsymmetric | client/app/hooks/useWebRTC.js:133 | two ids are never each smaller than the other |
| JsString.LessTotal | client/app/hooks/useWebRTC.js:133 | two different ids are always ordered one way or the other |
| JsString.LessTransitive | client/app/hooks/useWebRTC.js:133 | the string order is transitive |
| JsString.Less | client/app/hooks/useWebRTC.js:133 | `<` on strings: a proper prefix is always smaller |
| JsString.Leq | client/app/hooks/useFrame.js:38 | `<=` on strings: smaller or equal |
| JsString.LeqTransitive | client/app/hooks/useWebRTC.js:133 | the non-strict order is transitive |
| JsString.LeqTotal | client/app/hooks/useWebRTC.js:133 | any two ids are comparable |
| JsString.TrimStart | client/app/hooks/useRoom.js:111 | a suffix of the text, with only white space cut, not starting with white space |
| JsString.TrimEnd | client/app/hooks/useRoom.js:111 | a prefix of the text, with only white space cut, not ending with white space |
| JsString.TrimMeaning | client/app/hooks/useRoom.js:111 | the trimmed text is a contiguous piece of the original with only white space cut on either side |
| JsString.TrimEmptyIffBlank | client/app/hooks/useRoom.js:111 | a text trims to nothing if and only if it is all white space |
| JsString.Trim | client/app/hooks/useRoom.js:111 | `trim()` never lengthens a text, and a non-empty result neither starts nor ends with white space |
| JsString.ToUpper | worker/src/index.js:49 | upper-casing keeps the length |
| JsString.ToUpperIdempotent | worker/src/index.js:49 | upper-casing twice is upper-casing once |
| JsString.ToUpperKeepsRoomCode | worker/src/index.js:41-49 | an upper-cased valid room code is still valid |
| JsString.UpperCharKeepsAlnum | worker/src/index.js:41-49 | upper-casing a character keeps it a letter or digit, or not |
| JsString.CaseEquivalentRoomCode | worker/src/index.js:41-49 | codes equal up to case are both valid or both invalid |
| JsString.FirstSegment | client/app/hooks/useRoom.js:148 | the first segment is the longest prefix without the separator |
| JsString.FirstSegmentPrefix | client/app/hooks/useRoom.js:148 | a text without the separator, followed by it and more, splits back to that text |
| Layout.ShotsIn | client/app/constants/layout.js:1-5 | a layout key names shots exactly when the table has an entry under it, and then they are that entry's shots |
| Layout.LayoutShots | client/app/constants/layout.js:1-5 | `layoutN` takes N shots and every table key finds its own entry |
| Layout.PresetsShape | client/app/constants/layout.js:23-51 | the first preset is the plain layout without an image, every other one is a custom frame with an image, the ids are distinct and none is `upload` |
| Layout.StepOrder | client/app/constants/layout.js:53-61 | the steps run join, room, layout-select, countdown, processing, frame-select, result, each once |
| Layout.NumericConstants | client/app/constants/layout.js:7-19 | the chunk size is 65536 and every canvas dimension is positive |
| Frame.PresetsFor | client/app/hooks/useFrame.js:22-35 | the fixed presets, or, when a file name is set or a custom non-default source is chosen, the same list with the upload entry right after the first |
| Frame.PresetsForIds | client/app/hooks/useFrame.js:22-35 | the list always starts with the plain layout, its ids stay distinct, and it contains the upload id exactly when the upload entry is shown |
| Frame.Insert | client/app/hooks/useFrame.js:38 | inserting a participant adds exactly that participant to the multiset |
| Frame.InsertSorted | client/app/hooks/useFrame.js:38 | insertion into a list sorted by id keeps it sorted |
| Frame.SortById | client/app/hooks/useFrame.js:38 | the sorted list is a permutation of the participants |
| Frame.SortByIdSorted | client/app/hooks/useFrame.js:38 | the sorted list is in id order |
| Frame.SortedFirstIsSmallest | client/app/hooks/useFrame.js:38-39 | the first of the sorted list has an id no larger than anyone's |
| Frame.DefaultFrameNames | client/app/hooks/useFrame.js:37-42 | the right name is the trimmed name of the first participant in id order, the left that of the second, and a missing one gives the empty text |
| Frame.DefaultFrameNamesMeaning | client/app/hooks/useFrame.js:37-42 | no participants give two empty names, one gives only the right name, and the right name always belongs to a participant with the smallest id |
| Frame.TwoNames | client/app/hooks/useFrame.js:37-42 | for two participants, whichever order they arrive in, the smaller id is named on the right and the other on the left |
| Frame.AutoLocationString | client/app/hooks/useFrame.js:44-53 | no place gives the empty text; otherwise "city, country" when both are set after trimming, else the one that is set |
| Frame.AutoLocationBlank | client/app/hooks/useFrame.js:44-53 | the text is empty exactly when the id has no place or its city and country are both missing or blank |
| Frame.AutoTexts | client/app/hooks/useFrame.js:110-126 | with two participants of non-empty ids, the left text is the second one's place and the right text the first one's |
| Frame.YouId | client/app/hooks/useFrame.js:147 | there is no own id exactly when nobody is marked as this user, and otherwise it is the id of someone so marked |
| Frame.IsUserAMeaning | client/app/hooks/useFrame.js:147-149 | with distinct ids, this browser is user A exactly when its own id is smaller than every other participant's |
| Frame.IsUserA | client/app/hooks/useFrame.js:147-149 | when this browser is user A, its id is known and no larger than any participant's |
| Frame.LessTotalIds | client/app/hooks/useFrame.js:110 | any two different ids compare one way or the other |
| Frame.MergeKeyInjective | client/app/hooks/useFrame.js:72-85 | when no text field contains the separator, equal keys mean equal settings |
| Frame.MergeKey | client/app/hooks/useFrame.js:72-85 | the key starts with the session seed, up to the first separator |
| Frame.MergeKeyCollision | client/app/hooks/useFrame.js:72-85 | moving a separator character from the end of the left text to the start of the right one changes the settings but not the key |
| Frame.MergeKeyCorrectedInjective | client/app/hooks/useFrame.js:72-85 | the length-framed key is equal only for equal settings, whatever the texts contain |
| Frame.NewSeedNewKey | client/app/hooks/useFrame.js:72-85 | settings under different session seeds never share a key |
| Frame.Geometry | client/app/hooks/useFrame.js:131-207 | rows start below the header and follow each other one cell and one gap apart; the last row, the gap and the footer end the canvas; the two columns and three gaps fill its width |
| Frame.TotalW | client/app/hooks/useFrame.js:131 | the width is the right column's edge plus a cell and a gap |
| Frame.TotalH | client/app/hooks/useFrame.js:132 | the height is where a next row would start, plus the footer |
| Frame.RowY | client/app/hooks/useFrame.js:207 | every row starts at least a gap below the header, the first exactly there |
| Frame.StripSize | client/app/hooks/useFrame.js:131-132 | the strip is 2700 wide and 2430, 4330 or 6230 high for one, two or three rows |
| Frame.Rows | client/app/hooks/useFrame.js:201-216 | every row draws exactly two cells |
| Frame.RowsPlacement | client/app/hooks/useFrame.js:201-216 | this browser's shot of each row is on the right for user A and on the left otherwise, the other user's shot (or this browser's when it is missing) in the other column, both inside the canvas |
| Frame.DrawRows | client/app/hooks/useFrame.js:201-216 | the loop draws every row exactly when this browser has a shot for each, and otherwise stops at the first missing one having drawn the rows before it |
| Frame.FrameErrorAfter | client/app/hooks/useFrame.js:189-199 | an error is left exactly when a custom frame with a source failed to load |
| Frame.FrameState.constructor | client/app/hooks/useFrame.js:5-20 | the hook starts with the plain layout, the default frame image, no texts, no merged image, seed 0 and an empty cache |
| Frame.FrameState.LookFor | client/app/hooks/useFrame.js:72-85 | the settings a key is built from carry the requested count and the current seed |
| Frame.FrameState.MergePhotos | client/app/hooks/useFrame.js:87-240 | a cached key shows its image and changes nothing else; otherwise the texts are auto-filled only when neither was edited or set, the frame error follows the load, and the image is cached under the key and shown exactly when every row could be drawn |
| Frame.FrameState.FillTexts | client/app/hooks/useFrame.js:116-126 | texts neither edited nor set become the participants' places; any other texts stay |
| Frame.FrameState.Render | client/app/hooks/useFrame.js:101-226 | the uncached path: merging is over afterwards, texts and frame error as for a merge, and the cache gains the key only when every row was drawn |
| Frame.FrameState.Keep | client/app/hooks/useFrame.js:220-223 | a complete drawing is stored under its key and shown; an incomplete one leaves cache and image alone |
| Frame.FrameState.HandleFrameUpload | client/app/hooks/useFrame.js:242-259 | no file changes nothing; a read file becomes the custom `upload` frame under its name and empties the cache; a failed read only sets the read error |
| Frame.FrameState.SelectFramePreset | client/app/hooks/useFrame.js:261-281 | no preset changes nothing; any preset becomes the chosen id, clears the error and empties the cache; a plain one switches the frame off, a custom one switches it on with its image if it has one and drops the file name unless it is the upload entry |
| Frame.FrameState.ResetFrame | client/app/hooks/useFrame.js:283-298 | every setting the hook resets is back at its initial value (the frame and text colours are not reset, as in the hook), the seed moves on by one and the cache is empty |
| Frame.FrameState.ResetSettings | client/app/hooks/useFrame.js:284-289 | the frame settings are those of a fresh hook |
| Frame.FrameState.ResetMerge | client/app/hooks/useFrame.js:290-297 | texts and merge state are those of a fresh hook, with the next seed and an empty cache |
| Frame.FrameState.BumpSessionSeed | client/app/hooks/useFrame.js:300-303 | the seed moves on by one and the cache is empty |
| Frame.ResetListsFixedPresets | client/app/hooks/useFrame.js:283-298 | after a reset the list offered is the fixed preset list |
| Frame.MergeAgainHits | client/app/hooks/useFrame.js:94-99 | a merge that drew and cached its image is followed, for the same count and edited texts, by a merge that shows the same image |
| Frame.SelectUploadKeepsFrame | client/app/hooks/useFrame.js:261-281 | choosing the upload entry the list offers keeps the uploaded image and its name and makes it the custom frame |

## Left out

- Runtimes and foreign APIs are not modelled. This covers the Durable Object
  and Socket.IO runtimes, the browser `WebSocket`, `RTCPeerConnection` (ICE
  and SDP), `FileReader`, geolocation and the reverse-geocoding `fetch`. Their
  results are parameters, and the model keeps only the decisions around them.
- Timers are not modelled as time. A `setTimeout` that the code arms is
  recorded as pending and fired by an explicit method. The `bufferedAmount`
  wait loop before each chunk is left out, and so is the toast timer.
- Canvas drawing is not modelled (`drawImage`, `fillText`, fonts, colours,
  `Math.round` of the header baselines, `toDataURL`). The merge records the
  cells it draws and takes the encoded image as a parameter.
- Concurrency is left out. Each handler is one atomic step, and React's
  asynchronous state updates are immediate assignments. The socket reference
  of `useRoom` is taken to be present after mount.
- Random values, the clock and logging are left out. `crypto.randomUUID` and
  `Date.now` are parameters, and console output is left out.
- `JSON.parse` failures are left out. The worker's envelope is a decoded
  value, and parsing it is an `Option`.
- Handlers that would throw on a null payload in Node are modelled as doing
  nothing. The worker catches such errors, but a Node process would not.
- Some of JavaScript's coercions are simplified:
  - `localeCompare` and the relational operators on strings are replaced
    by code-point order. Dafny's characters are Unicode scalar values, while
    JavaScript's `<` compares UTF-16 code units, so the two orders differ
    for a character above U+FFFF against one in U+E000 to U+FFFF;
  - `locationsById[undefined]` is looked up under the key `"undefined"`;
  - a city or country is a string or absent, so `toString` of any other
    value is not modelled;
  - the undefined payload of `room:leave` is `JNull`.
- Frame.FrameState.MergePhotos: when this browser's shot `i` is missing,
  `URL.createObjectURL(undefined)` throws. The model stops the row loop there
  and reports `Failed`. It does not model the rejected promise that results.
- The absent `room:leave` route is left out. server/src/sockets/index.js:11
  registers that route under `EVENTS.ROOM.LEAVE`, which the server's constant
  table does not define, and calls `controller.handleLeave`, which
  controllers.js does not define. So the Node server has no `room:leave`;
  `ServerConstants.TransferNamesDiffer` states the missing entry.
- `SocketAdapter.join` (client/src/lib/SocketAdapter.js:232-235) is left out.
  It is a no-op that returns the adapter.
- Emits that listeners make from inside their own callbacks during `onopen`
  are left out.
- Adapter.SocketAdapter.Connected no longer promises that the `_connected`
  flag alone decides `connected`. The `onopen` of a socket that is no longer
  the current one raises the flag while the current socket is still
  connecting, and the getter then answers false.
- Adapter.SocketAdapter.OnOpen and Client.WebSocketClient.OnOpen accept the
  open event of any socket made so far except a current socket that is not
  connecting. The model does not track which dropped sockets were closed by
  `disconnect` and so can no longer open.
- Browser-side conveniences are left out:
  - the plain state setters of the hooks;
  - `copyRoomCode` and the clipboard;
  - `requestAndSendLocation`, which depends on geolocation and `fetch`.

  SweetAlert dialogs are kept as an `Alert` log.
- Client and server ids do not match. The client makes up its own id, while
  the worker relays with its session id as `from`. The model compares the ids
  it is given and does not reconcile them.
- RoomHook.LengthOf counts a string's length in code points, where
  JavaScript counts UTF-16 code units. It also reads a `length` member that is
  a string as undefined, where `<` would convert a numeric string such as "1"
  to a number.
- Frame.FrameState.MergePhotos keys the cache with the key as written
  (`Frame.MergeKey`), to stay faithful to the hook. The corrected key of the
  finding below is proved apart from it.
- RoomHook.AdoptedCode upper-cases only the ASCII letters a to z. The hook's
  `toUpperCase` applies full Unicode case mapping to whatever the link holds,
  so `?code=straße` becomes "STRASSE" there but "STRAßE" here, and `ı` or
  `ﬁ` differ likewise. RoomHook.LinkCodeAdopted rests on the same
  upper-casing. For codes the worker accepts (ASCII letters and digits) the
  two agree.
- Controllers.JoinCode and Controllers.SocketServer.HandleJoin model only a
  string `code`. With an absent or non-string `code`, controllers.js still
  calls `joinRoom` and `socket.join` under that key (`undefined` or a
  number) and emits `room:joined` and `room:ready`; the model does nothing
  for such a join, because room codes are strings here.
- JSON values are simplified beyond the coercions above:
  - `undefined` is `JNull` throughout. A `session:start` payload sends
    `"layout": null` where `JSON.stringify` and Socket.IO drop an undefined
    `layout` key, and a `session:layout` broadcast with an undefined layout
    carries a `null` payload where the worker sends no `payload` member;
  - JSON numbers are integers (`JNum(int)`), so fractional coordinates in
    location updates are not represented; only whether `lat` is a number
    matters to the relay;
  - spreading a payload that is not an object (a string or an array) gives
    the empty object, where JavaScript would spread its characters or
    elements as indexed keys.
- WebRtc.PeerLink.SendPhoto requires a positive chunk size. With a chunk size
  of 0 the hook's `while (offset < buffer.byteLength)` loop would never end;
  the hook always passes `CHUNK_SIZE` (65536).
- Several parts of the repository are outside this model: the UI
  components, `App.jsx`, `useCapture.js`, `usePhotoTransfer.js`, and the HTTP
  bootstrapping in server/src/index.js and server/index.js.

## Findings

| source | as written | input that shows it | evidently intended | confidence | as-written member | corrected member |
|---|---|---|---|---|---|---|
| client/src/lib/SocketAdapter.js:198-205 | `emit('room:join', {code})` always queues the join and calls `_connect`, which does nothing while a socket is already open, so the queue is never flushed | an adapter whose socket is open (for example after the room answered `room:error` "full") and then `emit('room:join', {code})` | a join while open is sent at once; the queue is only for a socket that is not open | not executed | Adapter.RejoinWhileOpenIsStuck | Adapter.RejoinWhileOpenIsSent |
| client/src/lib/SocketAdapter.js:253-261 | `disconnect()` sets the manual-close flag but does not cancel a reconnect timer that is already armed, and the timer calls `_connect` anyway | the socket closes unexpectedly (timer armed), then `disconnect()`, then the timer fires | after a manual disconnect no automatic reconnect happens | not executed | Adapter.DisconnectThenTimerReconnects | Adapter.CorrectedDisconnectStaysDown |
| client/src/lib/WebSocketClient.js:190-196 | the same: `disconnect()` leaves an armed reconnect timer, which calls `connect` | close unexpectedly, `disconnect()`, then the timer fires | a manual disconnect suppresses every later reconnect | not executed | Client.DisconnectThenTimerReconnects | Client.CorrectedDisconnectStaysDown |
| client/app/hooks/useFrame.js:72-85 | the merge key joins the settings with `\|`, so two different pairs of location texts can give the same key, and the cached image of one is shown for the other | left text `x\|` and right text `y`, against left text `x` and right text `\|y`, with all else equal | equal keys only for equal settings | not executed | Frame.MergeKeyCollision | Frame.MergeKeyCorrectedInjective |
