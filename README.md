# Video call: a verified model

This project models a small browser video-call application in Dafny. The application has two sides.

The backend is a FastAPI service. It keeps a registry of rooms, each with an id, a key and the
sockets of its participants. It serves three HTTP endpoints (create a room, verify a room,
health) and one WebSocket endpoint. The WebSocket endpoint admits a socket into a room and
registers it as a participant. It relays every frame the participant sends to everyone else in
the room, stamped with the sender's id. It drops recipients whose send fails. When the socket
goes away it removes the participant, and it removes the room once nobody is left.

The frontend is a React application. The model covers three parts of it:
- The `useVideoCall` hook: the call session. It opens the signaling socket and dispatches the
  messages it receives. It keeps one RTCPeerConnection per remote participant, the list of
  participants and the list of remote streams. It also toggles the local microphone and camera
  and tears everything down on leave.
- The environment configuration: the backend and WebSocket URLs derived from the page location
  and the build-time variables.
- The video grid: the grid classes, the tiles and the waiting banner shown for the session's
  streams.

Modules, one per source file, plus three shared helpers:

| file | module | models |
|---|---|---|
| `wrappers.dfy` | `Wrappers` | `Option` and `Result` |
| `json.dfy` | `Json` | primitive JSON values, objects as maps, object spread, decimal rendering of numbers |
| `lists.dfy` | `Lists` | `filter`, uniqueness by key, distinct sequences |
| `room_service.dfy` | `RoomService` | `backend/video_service.py`: the classes `Room` and `VideoService` |
| `signaling_server.dfy` | `SignalingServer` | `backend/main.py`: the endpoints, admission, relay rules, broadcast and cleanup, as the class `Server` |
| `env_config.dfy` | `EnvConfig` | `frontend/src/config/env.js`, as pure functions of the location and the environment |
| `video_call.dfy` | `VideoCall` | `frontend/src/hooks/useVideoCall.js`: the class `CallSession` over the hook's state and refs, with the list transforms as functions |
| `video_grid.dfy` | `VideoGrid` | `frontend/src/components/VideoGrid.jsx`, as pure functions |

How the model stands in for the outside world:
- **Client calls.** The hook's calls into browser objects are appended to
  `CallSession.effects`: requesting media or a room, opening or closing a socket, creating,
  describing or closing a peer connection, adding ICE candidates, restarting ICE, attaching
  and stopping tracks. `createAnswer` is not logged: what it produces, and which awaited step
  of `handleOffer` threw, is the parameter `outcome`; the description steps that ran are
  logged. Every frame sent on the socket is appended to `CallSession.outbox`.
- **Client results.** The results of asynchronous browser calls are parameters of the methods.
  These are the fetch response, the granted media stream and how the offer/answer steps end.
  A peer connection is an opaque `ConnHandle`, allocated from the counter `nextHandle`.
- **Server sockets.** A socket is a `ConnId`. The set `broken` names the sockets whose sends
  fail. What the server does to its sockets is appended to `Server.log`: accept, close with a
  code, and each send attempt with its outcome.
- **Server inputs.** The frames a socket yields are the sequence `items`. The draws of
  `random.choices` are the parameters `idDraws` and `keyDraw`. The clock reading is the
  parameter `stamp` (or `timestamp`).
- **Map order.** Where the source iterates a map, the order the model visits the keys is
  returned as a ghost `order`. This holds for `broadcast_to_room`'s dictionary and for the
  hook's `Map.forEach`. The contracts hold for every such order.

## Model

| member | source | states |
|---|---|---|
| RoomService.CodeChar | backend/video_service.py:38-43 | a draw yields a character of the alphabet A–Z, 0–9; the first 26 draws are the letters |
| RoomService.CodeCharBijective | backend/video_service.py:38-43 | every character of the alphabet is drawn by exactly one pick |
| RoomService.Code | backend/video_service.py:38-43 | `len(picks)` picks give a code of that length over A–Z, 0–9 |
| RoomService.CodeInjective | backend/video_service.py:38-43 | different picks give different codes |
| RoomService.GenerateRoomId | backend/video_service.py:37-39 | a room id has 6 characters, all in A–Z, 0–9 |
| RoomService.GenerateRoomKey | backend/video_service.py:41-43 | a room key has 8 characters, all in A–Z, 0–9 |
| RoomService.FirstFresh | backend/video_service.py:25-30 | the index of the first drawn id not yet taken, every earlier draw being taken |
| RoomService.Room.constructor | backend/video_service.py:7-11 | a new room has the given id and key and no participants |
| RoomService.VideoService.constructor | backend/video_service.py:14-16 | the registry starts empty |
| RoomService.VideoService.DrawFreshId | backend/video_service.py:25-30 | the redraw loop stops at the first draw whose id is not in the registry and returns that id |
| RoomService.VideoService.CreateRoom | backend/video_service.py:23-35 | the returned id was absent before; it is the first fresh draw and the key is the drawn key; the registry gains exactly that id, mapped to a fresh room with that key and no participants; all other rooms are unchanged; the count grows by 1 |
| RoomService.VideoService.VerifyRoom | backend/video_service.py:45-54 | an unknown id gives 404 "Room not found" whatever the key; a known id with another key gives 401 "Invalid room key"; success exactly when the id is known and the key matches; no state changes |
| RoomService.VideoService.GetRoom | backend/video_service.py:56-58 | the stored room exactly when the id is present, `None` otherwise |
| RoomService.VideoService.RemoveRoom | backend/video_service.py:60-63 | exactly that id is removed; an absent id changes nothing; a present one lowers the count by 1 |
| RoomService.VideoService.GetRoomCount | backend/video_service.py:65-67 | the number of active rooms |
| SignalingServer.HandlersDiffer | backend/main.py:26-40 | `create_room`'s handler turns every exception into 500 with its detail; it differs from `verify_room`'s exactly on an `HTTPException` other than that 500, which `verify_room` passes through |
| SignalingServer.PassHttp | backend/main.py:34-40 | an `HTTPException` passes through unchanged; any other error becomes 500 with the endpoint's detail |
| SignalingServer.Server.CreateRoomEndpoint | backend/main.py:24-30 | when `create_room` raises, the response is 500 "Failed to create room" and the registry is unchanged; otherwise the endpoint returns the new room's id and key; the id was absent and is the only one added, and it maps to a room with that key |
| SignalingServer.Server.VerifyRoomEndpoint | backend/main.py:32-40 | the 404 and 401 of `verify_room` reach the client unchanged; success exactly when the id is known and the key matches |
| SignalingServer.Server.HealthCheck | backend/main.py:42-48 | status "healthy", the given timestamp, and `active_rooms` equal to the registry's room count |
| SignalingServer.Admission | backend/main.py:57-74 | checks in order: a missing or empty key gives "Missing room key"; then an unknown room gives "Room not found"; then a key mismatch gives "Invalid room key"; admitted exactly when all three pass, and then the room is the registered one |
| SignalingServer.ParticipantId | backend/main.py:80 | a participant id starts with `user_` |
| SignalingServer.ParticipantIdsDiffer | backend/main.py:80 | at one instant, different participant counts give different ids |
| Json.NatToStringInjective | backend/main.py:80 | distinct counts render as distinct decimal strings |
| Json.DigitsValueOfNatToString | backend/main.py:80 | reading the decimal rendering of a count back gives the count |
| SignalingServer.RelayStep | backend/main.py:93-111 | invalid JSON is skipped, and only it; a relayed message is an object whose `sender_id` is the connection's id, overwriting any client value; its other fields, `to` included, are kept, and it gains no other key; an object of type `leave` stops the loop and is never relayed; a disconnect, a non-object or any other error stops the loop |
| SignalingServer.Attempts | backend/main.py:146-152 | one send attempt per recipient in visiting order, each failing exactly when that recipient's socket is broken |
| SignalingServer.AttemptsSnoc | backend/main.py:146-152 | one more recipient adds exactly one attempt, at the end |
| SignalingServer.Server.SendAll | backend/main.py:144-152 | the first loop tries every participant except the excluded one, once each, and logs each attempt; it collects exactly those whose send failed |
| SignalingServer.Server.Prune | backend/main.py:154-157 | the second loop removes exactly the collected participants still present; the others keep their sockets |
| SignalingServer.Server.Broadcast | backend/main.py:139-157 | one attempt per participant other than the excluded one; afterwards exactly the unreachable ones are removed and the rest remain; an empty room is left alone and nothing is sent |
| SignalingServer.Server.Register | backend/main.py:76-81 | the socket is accepted, then registered under `user_{n+1}_{stamp}` where n is the room's size before |
| SignalingServer.Server.Admit | backend/main.py:76-90 | after registration, `participant_joined` with the size after registration is attempted at every participant except the joiner; the unreachable ones are dropped and the joiner stays |
| SignalingServer.Server.ReceiveLoop | backend/main.py:93-111 | the loop ends at the first item whose step stops it, or when the socket yields nothing more; the log grows by exactly the relays of the turns before that item, each turn sent to everyone but the sender in some order over the participants that turn started with, and the participants are what those turns left |
| SignalingServer.Server.Turn | backend/main.py:94-111 | one iteration: it stops exactly when the step stops; a relayed message is sent to everyone but the sender and the unreachable are dropped; skipped invalid JSON and a stop change nothing |
| SignalingServer.SurvivorsShrink | backend/main.py:99-102 | the turns only drop participants, keeping the sockets of the others, and never drop the sender |
| SignalingServer.RunLogRelayedFrom | backend/main.py:97-102 | every send of the receive loop carries a message stamped with the sender's id and goes to someone else |
| SignalingServer.RunSnoc | backend/main.py:93-111 | one more turn extends the run: its sends follow the earlier ones and its pruning applies to what they left |
| SignalingServer.Server.RelayTurn | backend/main.py:99-102 | a relayed message goes to everyone but its sender; exactly the unreachable recipients are dropped |
| SignalingServer.Server.Cleanup | backend/main.py:121-137 | for an unregistered participant nothing happens; otherwise it is removed, `participant_left` with the remaining count is attempted at every remaining participant, the unreachable ones are dropped, and the room leaves the registry exactly when nobody remains |
| SignalingServer.Server.Endpoint | backend/main.py:50-137 | a failed admission closes the socket with 1008 and its reason and registers nothing; a disconnect during accept does nothing more; another error during accept closes with 1011 and registers nothing; for an admitted and accepted socket the new log entries are exactly those of serving it (as for `Serve`); the room stays registered exactly when it still has participants, and no room is added |
| SignalingServer.Server.Serve | backend/main.py:76-137 | the new log entries are, in order: the accept; the `participant_joined` sends with the size after registration, to everyone but the joiner; the relays of every turn before the one that stopped the loop; the `participant_left` sends with the remaining count, to everyone left; the participants at the end are the survivors minus the joiner and the unreachable; the room is registered exactly when non-empty |
| SignalingServer.ServedByPhases | backend/main.py:76-137 | the three phases' logs, grown one after another, make up exactly the event sequence of a served connection |
| EnvConfig.PortSuffix | frontend/src/config/env.js:19-20 | `':' + port`, except nothing for an empty port, 80 or 443 |
| EnvConfig.DevServerDefaults | frontend/src/config/env.js:10-15 | on localhost:3000 the backend is relative (`''`); over plain http the ws default is `ws://localhost:8000` |
| EnvConfig.DevServerSecureWsIsSchemeOnly | frontend/src/config/env.js:14 | on localhost:3000 over https the ws default is just `wss:`, because the conditional binds looser than `+` |
| EnvConfig.OriginDefaults | frontend/src/config/env.js:16-21 | elsewhere the backend is the page's protocol, host and port suffix, and ws is the same authority under `wss:` for https and `ws:` otherwise |
| EnvConfig.NoWindowDefaults | frontend/src/config/env.js:25-29 | without a window the defaults are `http://localhost:8000` and `ws://localhost:8000` |
| EnvConfig.OrElse | frontend/src/config/env.js:36-53 | `v \|\| fallback`: a set, non-empty value wins, otherwise the fallback |
| EnvConfig.MakeConfig | frontend/src/config/env.js:34-54 | `BACKEND_URL` and `WS_URL` fall back to the computed defaults; `NODE_ENV` takes `VITE_NODE_ENV`, then `MODE`, then "development"; `API.BASE` and `WS.BASE` fall back to the localhost:8000 literals; the endpoint paths are fixed; `NODE_ENV`, `API.BASE` and `WS.BASE` are never empty |
| EnvConfig.GetDefaultUrls | frontend/src/config/env.js:2-30 | the backend default is relative (`''`) exactly on localhost:3000; the ws default starts with `wss:` exactly when there is a window served over https |
| EnvConfig.BasesIgnoreLocation | frontend/src/config/env.js:46-53 | `API.BASE` and `WS.BASE` do not depend on the page location |
| EnvConfig.NodeEnvFallback | frontend/src/config/env.js:42 | `NODE_ENV` is `VITE_NODE_ENV` when set and non-empty; otherwise `MODE` when set and non-empty; otherwise "development" |
| EnvConfig.EnvironmentFromInputs | frontend/src/config/env.js:42-58 | `isDevelopment()` and `isProduction()` hold exactly when the first set, non-empty one of `VITE_NODE_ENV` and `MODE` is "development" or "production" respectively, development also when neither is set; they never both hold |
| EnvConfig.GetApiUrl | frontend/src/config/env.js:61 | the URL is `API.BASE` followed by the endpoint |
| EnvConfig.GetWsUrl | frontend/src/config/env.js:64 | the URL is `WS.BASE` followed by the endpoint |
| Json.NatToString | frontend/src/components/VideoGrid.jsx:130 | a count renders as a non-empty string of decimal digits with no leading zero |
| Json.Spread | frontend/src/hooks/useVideoCall.js:113 | `{...p, ...q}` has every field of both; `q`'s values win |
| VideoCall.WithoutParticipant | frontend/src/hooks/useVideoCall.js:89 | the result holds exactly the participants whose id differs, none with that id |
| VideoCall.WithoutParticipantSnoc | frontend/src/hooks/useVideoCall.js:89 | the removal keeps order and multiplicity: an empty list stays empty, and an entry appended to the input is appended to the output exactly when its id differs |
| VideoCall.WithoutAbsentParticipant | frontend/src/hooks/useVideoCall.js:89 | a list without that id is returned unchanged |
| VideoCall.WithoutStreams | frontend/src/hooks/useVideoCall.js:96 | the result holds exactly the streams of other participants |
| VideoCall.WithoutStreamsSnoc | frontend/src/hooks/useVideoCall.js:96 | the removal keeps order and multiplicity: an appended stream is appended to the output exactly when it belongs to another participant |
| VideoCall.WithoutAbsentStreams | frontend/src/hooks/useVideoCall.js:96 | a list without a stream of that participant is returned unchanged |
| VideoCall.SocketUrl | frontend/src/hooks/useVideoCall.js:35 | the socket URL is `WS.BASE` followed by `/ws/`, the room id, `?key=` and the room key |
| VideoCall.MergeUpdate | frontend/src/hooks/useVideoCall.js:112-114 | same length and ids; an entry whose id matches is shallow-merged with the update, every other entry is unchanged |
| VideoCall.ReplaceStream | frontend/src/hooks/useVideoCall.js:141-145 | the same entries in place, with the stream replaced exactly for that participant |
| VideoCall.UpsertStream | frontend/src/hooks/useVideoCall.js:138-148 | an existing entry is replaced in place; otherwise one entry is appended; either way the participant has a stream |
| VideoCall.UpsertKeepsIdsUnique | frontend/src/hooks/useVideoCall.js:138-148 | the upsert never creates a second entry for a participant |
| VideoCall.WithoutStreamsKeepsIdsUnique | frontend/src/hooks/useVideoCall.js:96 | removing a participant's streams keeps ids unique |
| VideoCall.ClosesFor | frontend/src/hooks/useVideoCall.js:310 | the `close()` calls of `forEach`, one per visited key, in order |
| VideoCall.ClosesForSnoc | frontend/src/hooks/useVideoCall.js:310 | one more visited key adds one more close, at the end |
| VideoCall.OfferConsistent | frontend/src/hooks/useVideoCall.js:172-195 | an offer keeps the session invariant (fresh handles, one live connection per key, nothing closed twice, one stream per participant); a connection it replaces is not closed |
| VideoCall.ParticipantLeftConsistent | frontend/src/hooks/useVideoCall.js:88-97 | `participant_left` keeps the session invariant |
| VideoCall.AfterMessageConsistent | frontend/src/hooks/useVideoCall.js:77-120 | every case of the dispatcher keeps the session invariant |
| VideoCall.ParticipantLeftRemovesEverything | frontend/src/hooks/useVideoCall.js:88-97 | the lists become the order-preserving removals of that id; every participant and every stream with that id is removed and all others kept; lists without the id are unchanged; the connection, when there is one, is closed and deleted, with no other entry touched; nothing else changes |
| VideoCall.OfferInstallsFreshEntry | frontend/src/hooks/useVideoCall.js:172-195 | the sender gets a fresh connection, replacing any earlier one, which is not closed; every other entry is kept; an answer to the sender is sent exactly when the answer was produced and the socket is open |
| VideoCall.StaleMessagesIgnored | frontend/src/hooks/useVideoCall.js:198-219 | an answer or candidate from a participant without a connection changes nothing; the candidate is dropped |
| VideoCall.DirectoryUpdates | frontend/src/hooks/useVideoCall.js:78-118 | `room_joined` installs the snapshot or `[]`; `participant_joined` appends exactly one entry and keeps the earlier ones; `participant_updated` keeps the length and changes nothing else; an unknown type changes nothing |
| VideoCall.ToggleMuteProperties | frontend/src/hooks/useVideoCall.js:330-346 | toggling twice restores the track flags; after a toggle `isMuted` is the negated flag and the update is sent only when the socket is open; without a stream or an audio track nothing happens |
| VideoCall.ToggleVideoProperties | frontend/src/hooks/useVideoCall.js:349-365 | the same for the first video track and `isVideoOff` |
| VideoCall.ClosesForCoversMap | frontend/src/hooks/useVideoCall.js:310 | visiting every key closes every connection of the map |
| VideoCall.ClosesForConsistent | frontend/src/hooks/useVideoCall.js:310-311 | closing distinct live connections one after another closes none twice |
| VideoCall.LeaveTearsDown | frontend/src/hooks/useVideoCall.js:302-327 | after `leaveRoom` the map is empty, the socket, local stream and room are null, the lists are empty and the flags false; every connection of the map was closed, none twice; leaving a session that is already torn down changes nothing |
| VideoCall.CheckRoomResponseCases | frontend/src/hooks/useVideoCall.js:244-259 | a room is accepted exactly when the request went through, the status is ok, the body is JSON and both credentials are non-empty, and then it is that room; otherwise the first failed check is reported: the request, the status, the body, and a body without both credentials as an invalid response |
| VideoCall.CallSession.constructor | frontend/src/hooks/useVideoCall.js:12-25 | the initial state: no room, no socket, no connections, empty lists, flags false |
| VideoCall.CallSession.SendIfOpen | frontend/src/hooks/useVideoCall.js:185-191 | a frame is sent exactly when the socket is open |
| VideoCall.CallSession.CreatePeerConnection | frontend/src/hooks/useVideoCall.js:123-174 | a fresh handle, created and given the local tracks when there is a local stream, stored under the participant, replacing any earlier entry |
| VideoCall.CallSession.OnTrack | frontend/src/hooks/useVideoCall.js:136-149 | the remote stream is upserted; nothing else changes; the invariant is kept |
| VideoCall.CallSession.OnIceCandidate | frontend/src/hooks/useVideoCall.js:152-160 | a gathered candidate is sent to that participant when the socket is open; the end of gathering sends nothing |
| VideoCall.CallSession.OnConnectionStateChange | frontend/src/hooks/useVideoCall.js:163-170 | a failed connection restarts ICE; nothing else changes |
| VideoCall.CallSession.HandleOffer | frontend/src/hooks/useVideoCall.js:177-195 | the new state is the offer transition: a fresh connection for the sender, the description calls up to the step that threw, and the answer when produced and the socket is open |
| VideoCall.CallSession.HandleAnswer | frontend/src/hooks/useVideoCall.js:198-207 | the answer is applied to the sender's connection when there is one; otherwise nothing changes |
| VideoCall.CallSession.HandleIceCandidate | frontend/src/hooks/useVideoCall.js:210-219 | the candidate is added to the sender's connection when there is one; otherwise it is dropped |
| VideoCall.CallSession.HandleParticipantLeft | frontend/src/hooks/useVideoCall.js:88-97 | the new state is the `participant_left` transition |
| VideoCall.CallSession.SetParticipants | frontend/src/hooks/useVideoCall.js:80-84 | only the participant list changes |
| VideoCall.CallSession.HandleMessage | frontend/src/hooks/useVideoCall.js:77-120 | the new state is the dispatcher's transition for the message |
| VideoCall.CallSession.OnSocketMessage | frontend/src/hooks/useVideoCall.js:50-58 | a parsed frame is dispatched and the invariant kept; a frame that is not JSON changes nothing |
| VideoCall.CallSession.OnSocketOpen | frontend/src/hooks/useVideoCall.js:45-48 | `isConnected` becomes true; nothing else changes but the socket's ready state |
| VideoCall.CallSession.OnSocketClose | frontend/src/hooks/useVideoCall.js:60-67 | `isConnected` becomes false; nothing else changes but the socket's ready state |
| VideoCall.CallSession.OnSocketError | frontend/src/hooks/useVideoCall.js:69-73 | `isConnected` becomes false and nothing else changes |
| VideoCall.CallSession.ConnectWebSocket | frontend/src/hooks/useVideoCall.js:28-74 | an empty id or key opens nothing and changes nothing; otherwise a new socket to `WS.BASE/ws/{id}?key={key}` is opened and becomes the current one, still connecting |
| VideoCall.CallSession.GetUserMedia | frontend/src/hooks/useVideoCall.js:222-237 | media is requested; a granted stream becomes the local stream; a refusal fails and keeps the old one |
| VideoCall.CallSession.EnterCreatedRoom | frontend/src/hooks/useVideoCall.js:261-271 | media is acquired first; a refusal fails with the local stream, room and socket left as they were; otherwise the room is recorded and the socket opened |
| VideoCall.CallSession.CreateRoom | frontend/src/hooks/useVideoCall.js:240-279 | a failed response check fails before media is requested; then a media refusal fails with the local stream, room and socket left as they were; otherwise the room is recorded and the socket opened, after the media request; loading is false at the end; the invariant is kept |
| VideoCall.CallSession.JoinRoom | frontend/src/hooks/useVideoCall.js:282-299 | media is acquired first; a refusal fails with the local stream, room and socket left as they were; otherwise the socket is opened (unless a credential is empty) and the room recorded even then; loading is false at the end |
| VideoCall.CallSession.CloseAllPeers | frontend/src/hooks/useVideoCall.js:310 | every connection of the map is closed, once each, in some order of its keys; an empty map closes nothing |
| VideoCall.CallSession.DropSocket | frontend/src/hooks/useVideoCall.js:304-307 | a current socket is closed and the ref cleared |
| VideoCall.CallSession.DropLocalStream | frontend/src/hooks/useVideoCall.js:314-317 | the local tracks are stopped and the ref cleared |
| VideoCall.CallSession.ResetView | frontend/src/hooks/useVideoCall.js:320-326 | room, connection flag, lists and toggles are reset |
| VideoCall.CallSession.LeaveRoom | frontend/src/hooks/useVideoCall.js:302-327 | the new state is the teardown: socket closed, every connection closed before the map is cleared, tracks stopped, state reset; the invariant is kept |
| VideoCall.CallSession.Unmount | frontend/src/hooks/useVideoCall.js:367-372 | afterwards everything is torn down; unmounting a session that was already torn down changes nothing |
| VideoCall.CallSession.ToggleMute | frontend/src/hooks/useVideoCall.js:330-346 | the new state is the mute toggle |
| VideoCall.CallSession.ToggleVideo | frontend/src/hooks/useVideoCall.js:349-365 | the new state is the video toggle |
| VideoGrid.TotalParticipants | frontend/src/components/VideoGrid.jsx:94 | one more than the number of remote streams, an absent list counting as none; so at least 1 |
| VideoGrid.GridCols | frontend/src/components/VideoGrid.jsx:97-103 | 1 gives `grid-cols-1`, 2 `grid-cols-1 lg:grid-cols-2`, up to 4 `grid-cols-2`, up to 6 `grid-cols-2 lg:grid-cols-3`, beyond `grid-cols-2 lg:grid-cols-3 xl:grid-cols-4` |
| VideoGrid.AspectRatio | frontend/src/components/VideoGrid.jsx:105-109 | `aspect-video` exactly for 1 and 2, `aspect-square lg:aspect-video` otherwise |
| VideoGrid.FindById | frontend/src/components/VideoGrid.jsx:129 | the first participant with that id, `None` exactly when there is none |
| VideoGrid.Label | frontend/src/components/VideoGrid.jsx:37 | a non-empty string name is shown as it is; a name that is `true` renders as nothing, and only then is the label empty; an absent or falsy name gives "You" for the local tile and "Participant" otherwise |
| VideoGrid.StatusDot | frontend/src/components/VideoGrid.jsx:80-88 | a dot exactly when the status is set and truthy; green exactly for "connected", yellow exactly for "connecting", red exactly for any other truthy status |
| VideoGrid.TileView | frontend/src/components/VideoGrid.jsx:5-91 | video exactly when a stream is present and the camera is not off; the badge adds " (You)" for the local tile; the mute indicator exactly when `isMuted` is defined; the camera-off indicator exactly when either flag says so |
| VideoGrid.LocalTileShape | frontend/src/components/VideoGrid.jsx:116-121 | the local tile is "You", shows video exactly when there is a stream and the camera is on, and shows as unmuted |
| VideoGrid.RemoteTileFallback | frontend/src/components/VideoGrid.jsx:129-134 | a stream whose participant is unknown gets "Participant {index+1}", unmuted, video on, connected |
| VideoGrid.RemoteTileNamed | frontend/src/components/VideoGrid.jsx:129 | a stream whose participant is listed shows the first such participant |
| VideoGrid.Render | frontend/src/components/VideoGrid.jsx:93-141 | one tile for the local stream, first, then one per remote stream in order; the grid and aspect classes follow the total; the banner shows exactly when the local tile is alone |
| VideoGrid.AloneShowsBanner | frontend/src/components/VideoGrid.jsx:141 | the banner shows exactly when there are no remote streams, and then the grid is one full-width column |

## Left out

- Transport, I/O and timing. The WebSocket transport, HTTP, `fetch`, `getUserMedia` and RTCPeerConnection internals are foreign calls: they are logged effects and oracle parameters.
- Concurrency. asyncio interleaving of simultaneous socket handlers and React's asynchronous state batching are out; `set*` updates are sequential assignments.
- Side outputs. Toasts, `console` and `logger` output, `logConfig` (frontend/src/config/env.js:67-77) and the `print` in `create_room` (backend/video_service.py:33) are side outputs only.
- Server configuration. CORS, the FastAPI app object and uvicorn startup (backend/main.py:13-22, 159-169) are configuration.
- Component plumbing. `VideoTile`'s `useEffect`/ref (frontend/src/components/VideoGrid.jsx:8-12), the motion animation props, the styling classes other than those the model names, and the React `key` (frontend/src/components/VideoGrid.jsx:126) are DOM plumbing.
- Other components. The rest of the frontend is presentation and is not part of this model.
- Cross-side scenarios. The two sides disagree on field names, so no property links them. The server sends `participant_id` and `sender_id`; the client reads `participant` and `from`; the client sends `participant_update` but handles `participant_updated`.
- Room fields. `Room.created_at` is not modelled. The `__new__` singleton is one `VideoService` object shared by the server.
- RoomService.VideoService.CreateRoom: random draws are an oracle. Termination requires that some draw is fresh (`SomeFresh`), standing for randomness eventually producing an unused id.
- SignalingServer.Server.CreateRoomEndpoint: which exception `create_room` raises is the parameter `raised`, not derived from the draws. Everything in `create_room` that can raise (the draws and the `print`) comes before the room is registered (backend/video_service.py:25-34), so a raised exception leaves the registry as it was.
- Clock. `datetime.now()` is the parameter `stamp` in participant ids, and `timestamp` in the health report.
- SignalingServer.Server.Endpoint: the end of `items` is treated as a disconnect. An error raised by the `close(1011)` call itself is not modelled.
- SignalingServer.Server.Endpoint: `broken` is one fixed set of failing sockets for the whole connection. Sends do not start failing part way through.
- Message payloads. JSON values are null, booleans and strings. Numbers and nested payloads are not modelled, so SDP offers, answers and ICE candidates are opaque strings.
- Missing message fields. The model's messages always carry the fields the hook reads, so frames without them are not represented. In the source a `participant_joined` without `participant` appends `undefined` and then throws reading its name (frontend/src/hooks/useVideoCall.js:84-85); a `participant_left` without `participant_id` filters and looks up by `undefined` (frontend/src/hooks/useVideoCall.js:89-96); an `offer`, `answer` or `ice_candidate` without `from` is keyed by `undefined` (frontend/src/hooks/useVideoCall.js:100-109); and a track event without `streams[0]` stores an `undefined` stream (frontend/src/hooks/useVideoCall.js:143,147).
- The client's `data.participants || []` takes a missing list as `[]`. Other falsy values are not distinguished.
- Send order. The order of `broadcast_to_room`'s sends follows the dictionary's insertion order. The model abstracts it as some order of the keys, returned as ghost `order`; `forEach` over the connection map likewise.
- VideoCall.CallSession.HandleOffer: the JavaScript `try/catch` aborts at the awaited step that throws. The model takes which step threw as the parameter `outcome`.
- The local stream's tracks. The model holds only the `enabled` flags of the audio and video tracks. `getTracks().forEach(addTrack)` is one `AttachTracks` effect, and `track.stop()` for all tracks is one `StopTracks` effect.
- The model does not add behaviour the source lacks. This includes offer initiation on `participant_joined`, ICE-candidate buffering, reconnects and timeouts.
