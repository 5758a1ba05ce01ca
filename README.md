# Room-based signaling for mesh video calls, in Dafny

This project models the core of a small video-call system. Participants who share a six-character room code are put in touch, and their browsers then build a full mesh of peer-to-peer WebRTC connections. It has three layers, each modelled in the form the code has:

- **Rooms and their store** (`models.dfy`, `storage.dfy`, `room_manager.dfy`).
  - A `Room` is a class. Its participant table has a capacity, and the room has an `open | closed | expired` state and an expiry time.
  - The JSON file of rooms is a `JsonStorage` object. It holds a map from room code to stored entry, the key order of the JSON object, and a count of file rewrites.
  - An entry is a loadable room, an entry with some field that does not load (a date that does not parse, a missing field), or an empty object.
  - The `RoomManager` generates codes, creates rooms, marks expired rooms on lookup, and admits or removes participants.
- **The server's signaling router** (`websocket_manager.dfy`).
  - The `ConnectionManager` keeps the set of connected sockets and the socket-to-room map.
  - Every message it sends goes into an `outbox` log of (recipient, message) pairs.
  - Each handler's outcome is stated by a step predicate over a `Snapshot` of the server state: its error codes, in the handler's check order, and its broadcasts, as "exactly once to each member of this audience".
- **The browser's session dispatcher** (`client.dfy`).
  - `Client` holds the page's globals. These are the socket state, the local stream, `mySocketId`, `currentRoomCode`, the `peerConnections` registry and the video tiles. The log of `sendMessage` calls is held there too.
  - Each handler is proved equal to a function over the `Session` value.
  - The properties are lemmas on those functions, and a registry invariant, `Consistent`, is kept by every server message.

`protocol.dfy` holds the message and error-code vocabulary that the server and the client share. `config.dfy` holds the constants of `config.py`. `wrappers.dfy` holds `Option`.

Time is an integer parameter `now`, in seconds. `secrets.choice` is a nondeterministic choice of a charset index. A Python exception that escapes a handler is a `raised` result, and `handle_message` turns it into `SERVER_ERROR`. A JavaScript handler whose promise rejects has `ok == false`.

Some behaviour the model proves about the code:

- **Who offers.** The late joiner offers: it creates one offering connection per peer listed in `joined` (`static/webrtc-client.js:161-170`). Existing members wait for the newcomer's signal on `peer_joined` and only answer (`OfferToAllSpec`, `PassiveMessages`, `SignalFromUnknownCreatesAnswerer`).
- **No buffering or recovery.** There is no candidate buffering (`CandidateAppliedImmediately`). There is no offer-collision tie-break and no renegotiation: a new connection silently replaces an older one for the same peer, without closing it (`LatestCreationWins`).
- **`ROOM_EXPIRED` is never sent** when the clock does not move during a join. `get_room` has already marked the room expired, so the `ROOM_CLOSED` check fires first (`ExpiredRoomReportedClosed`, `JoinNeverReportsExpired`). The `ROOM_EXPIRED` branch of `handle_join_room` is unreachable code in the model.
- **`handle_chat_message` always raises.** It reads `self.room_participants`, which the class never sets, so a chat message always ends in `SERVER_ERROR`.
- **Departures are uneven.** `disconnect` removes the socket from its room but tells nobody. A second successful join leaves the socket in its earlier room too.
- **Fallback codes can collide.** The fallback code after 100 collisions is not checked against the store, so `create_room` may overwrite an existing room.

## Model

| member | source | states |
|---|---|---|
| Models.AdmittedRefusal | models.py:38-48 | a full table, or one already holding the socket, is left as it is; capacity is checked first |
| Models.AdmittedInsertion | models.py:41-47 | admitting a new socket under capacity inserts exactly that key, grows the table by one and keeps every other entry |
| Models.AdmitAllWithinCapacity | models.py:36-48 | from a table within capacity, no sequence of admissions exceeds the capacity |
| Models.AdmitAllKeepsMembers | models.py:36-48 | admissions never drop or change an earlier participant |
| Models.ExpiryIsPermanent | models.py:68-70 | a room expired at one time is expired at every later time |
| Models.ListValues | models.py:59-66 | a comprehension over the table's values lists the participants' views along some enumeration of the keys, each participant exactly once |
| Models.ListsAllMembers | models.py:59-66 | such a list has one entry per participant, each entry some participant's view, and every participant's view in it |
| Models.ListedByMembers | models.py:59-66 | the same three facts for a listing along a given enumeration of the keys |
| Models.Room.constructor | models.py:21-29 | a room object holds exactly the given contents |
| Models.Room.AddParticipant | models.py:36-48 | returns true exactly when the table has room and lacks the socket; the table becomes the admitted table, and nothing else changes |
| Models.Room.RemoveParticipant | models.py:50-55 | returns true exactly when the socket was present; afterwards it is absent and every other field and entry is unchanged |
| Models.Room.ParticipantList | models.py:57-66 | exactly one summary per participant, in unspecified order |
| Models.Room.Close | models.py:72-74 | the state becomes closed and nothing else changes |
| Storage.SaveThenFetch | storage.py:40-67 | after saving a room, reading its code yields that room and every other code reads as before |
| Storage.DeleteThenFetch | storage.py:47-53 | after deleting a code it reads as absent, and other codes read as before |
| Storage.WithoutMembers | storage.py:115-116 | deleting keys leaves exactly the keys that were not deleted |
| Storage.WithoutDistinct | storage.py:115-116 | deleting keys keeps the key order free of duplicates |
| Storage.WithoutNothing | storage.py:69-76 | deleting a key that is not there leaves the key order as it was |
| Storage.StaleCodesMembers | storage.py:105-113 | `rooms_to_delete` holds exactly the codes that are past expiry or whose expiry does not parse |
| Storage.StaleCodesDistinct | storage.py:105-113 | `rooms_to_delete` lists no code twice |
| Storage.CleanupCount | storage.py:102-121 | the count returned is the number of entries removed |
| Storage.CleanupOutcome | storage.py:102-121 | cleanup leaves exactly the fresh entries, a duplicate-free key order over them, codes still matching, and returns zero exactly when nothing was stale |
| Storage.LoadedRoomsMembers | storage.py:78-100 | `get_all_rooms` yields exactly the loadable entries and skips the others |
| Storage.LoadedRoomsOnce | storage.py:78-100 | `get_all_rooms` yields each stored room once |
| Storage.CollectStale | storage.py:105-113 | the first cleanup loop collects the stale codes in key order |
| Storage.DeleteAll | storage.py:115-116 | the second cleanup loop removes exactly the listed codes |
| Storage.JsonStorage.constructor | storage.py:14-23 | a missing file is created with no rooms and written once |
| Storage.JsonStorage.Existing | storage.py:14-23 | an existing file is taken as it is and not written |
| Storage.JsonStorage.SaveRoom | storage.py:40-45 | stores the room under its own code, overwriting any earlier entry, leaves other codes alone, rewrites the file and returns true |
| Storage.JsonStorage.GetRoom | storage.py:47-67 | a fresh room equal to the stored one, None for an absent code or an empty entry, an exception for an entry that does not load |
| Storage.JsonStorage.DeleteRoom | storage.py:69-76 | returns true exactly when the code was stored; the code is then absent; otherwise nothing changes and the file is not rewritten |
| Storage.JsonStorage.GetAllRooms | storage.py:78-100 | a fresh room per loadable entry, in key order |
| Storage.JsonStorage.CleanupExpiredRooms | storage.py:102-121 | removes exactly the stale entries, returns how many, and rewrites the file only when one was removed |
| RoomManagement.DecimalString | room_manager.py:34 | `str(n)` is a non-empty string of decimal digits |
| RoomManagement.FallbackCodeIsRoomCode | room_manager.py:32-35 | the fallback code is six charset characters, its first five drawn and its last from the clock |
| RoomManagement.Refreshed | room_manager.py:69-71 | marking leaves `is_expired` unchanged, sets the state to expired when the room is expired, and changes nothing else |
| RoomManagement.LookupMarksExpired | room_manager.py:65-73 | a lookup rewrites only its own code, and only with the room marked expired when it is |
| RoomManagement.LookupIdempotent | room_manager.py:65-73 | a second lookup of the same code writes nothing new |
| RoomManagement.RefreshedAcceptsSame | room_manager.py:91-100 | marking a room expired does not change whether it admits a socket |
| RoomManagement.JoinRefusalKeepsParticipants | room_manager.py:91-108 | a refused join leaves the room's participants unchanged, and an absent or unloadable room leaves the file unchanged |
| RoomManagement.JoinAddsOne | room_manager.py:102-106 | an accepted join adds exactly the socket, stays within capacity and changes nothing else in the room |
| RoomManagement.JoinKeepsOtherRooms | room_manager.py:83-108 | a join never touches another code |
| RoomManagement.RemovalKeepsRoom | room_manager.py:110-128 | a removal drops exactly the socket and keeps the room stored, even once it is empty |
| RoomManagement.RemovalAbsentKeepsParticipants | room_manager.py:117-128 | removing a socket that is not there changes no participant table |
| RoomManagement.RemovalThenLookup | room_manager.py:65-73 | a lookup after a removal writes nothing new |
| RoomManagement.NewRoomDefaults | room_manager.py:46-60 | absent settings become a 24-hour lifetime and 50 places; the room is open and empty |
| RoomManagement.NewRoomAcceptsCreator | room_manager.py:37-63 | a new room admits its creator exactly when both its lifetime and its capacity are positive |
| RoomManagement.FirstHolderSound | room_manager.py:134-142 | the room found holds the socket and no earlier room does |
| RoomManagement.FirstHolderComplete | room_manager.py:134-142 | nothing is found exactly when no room holds the socket |
| RoomManagement.FirstHolderSkip | room_manager.py:138-140 | a room without the socket does not change the answer |
| RoomManagement.DrawCode | room_manager.py:23-26 | a drawn string has the asked length and only charset characters |
| RoomManagement.RoomManager.constructor | room_manager.py:13-14 | the manager works on the given store |
| RoomManagement.RoomManager.GenerateRoomCode | room_manager.py:16-35 | a six-character charset code that `get_room` does not find, drawn after fewer than 100 collisions, each collision a stored room; after 100 collisions the clock-suffixed fallback; the search raises exactly at a drawn code whose entry cannot be loaded |
| RoomManagement.RoomManager.CreateRoom | room_manager.py:37-63 | stores the new open room with the defaults applied, expiring `ttl` hours after `now`, under a fresh or fallback code |
| RoomManagement.RoomManager.GetRoom | room_manager.py:65-73 | the stored room, marked and written back as expired when it is |
| RoomManagement.RoomManager.AddParticipant | room_manager.py:83-108 | a room is returned exactly when it exists, is open, unexpired and has space for a new socket, and it is then stored with the newcomer; a refused join leaves the file as `get_room` left it, which rewrites an expired room marked expired; the write count adds that rewrite and the save |
| RoomManagement.RoomManager.RemoveParticipant | room_manager.py:110-128 | a room is returned exactly when it held the socket; it is returned and stored without it, marked expired when it is, even when empty; otherwise the file is as `get_room` left it; the write count adds the lookup's rewrite and the save |
| RoomManagement.RoomManager.GetParticipantRoom | room_manager.py:134-142 | the first loadable room, in file order, that holds the socket, with its code; None when no room does |
| Signaling.FansOutLength | websocket_manager.py:53-59 | a broadcast sends exactly one message per recipient |
| Signaling.FansOutExtend | websocket_manager.py:53-59 | one more send to a new recipient extends a broadcast to that recipient |
| Signaling.ExpiredRoomReportedClosed | websocket_manager.py:74-96 | a join to an expired room is answered `ROOM_CLOSED` |
| Signaling.JoinNeverReportsExpired | websocket_manager.py:90-96 | within one call a join is never answered `ROOM_EXPIRED` |
| Signaling.JoinAdmittedIff | websocket_manager.py:61-105 | a join is admitted exactly when a code is given and the room manager would accept the socket |
| Signaling.FullOrDuplicateReportedFull | websocket_manager.py:98-105 | a full room, and a room the socket is already in, is answered `ROOM_FULL` |
| Signaling.SignalForwardIff | websocket_manager.py:152-191 | a signal is forwarded, unchanged, exactly when it has a non-empty target and type and a payload that is neither missing nor `null`, and its target is in the sender's room |
| Signaling.IncompleteSignalRefused | websocket_manager.py:158-163 | a signal with an empty or missing target or type, or a payload that is missing or `null`, is answered `INVALID_SIGNAL` before anything else is checked |
| Signaling.LeaverNotNotified | websocket_manager.py:135-150 | the leaver is not in the `peer_left` audience |
| Signaling.CreatedRoomStaysStored | websocket_manager.py:222-249 | a created room stays stored even when its creator cannot join it |
| Signaling.AdmittedJoinAudience | websocket_manager.py:127-133 | after an admitted join, the `peer_joined` broadcast rewrites no room and reaches exactly the connected participants who were there before the joiner |
| Signaling.AnnouncedJoin | websocket_manager.py:107-133 | the mapping, a `joined` listing each earlier participant once, and one `peer_joined` to each connected earlier participant make up a successful join |
| Signaling.ConnectionManager.constructor | websocket_manager.py:13-17 | no sockets, no mappings, nothing sent |
| Signaling.ConnectionManager.Connect | websocket_manager.py:19-22 | the socket becomes reachable and nothing else changes |
| Signaling.ConnectionManager.Disconnect | websocket_manager.py:24-33 | the socket is no longer reachable and leaves its room and mapping; nobody is told; an unknown socket changes nothing else |
| Signaling.ConnectionManager.SendMessage | websocket_manager.py:35-42 | a message reaches a connected socket and is dropped otherwise |
| Signaling.ConnectionManager.SendEach | websocket_manager.py:53-59 | exactly one send to each connected target not excluded |
| Signaling.ConnectionManager.Broadcast | websocket_manager.py:44-59 | exactly one message to each connected, non-excluded participant of the room after the lookup; nothing for an absent room |
| Signaling.ConnectionManager.HandleJoinRoom | websocket_manager.py:61-133 | errors in the order missing code, not found, closed, expired, full, each one message to the joiner with no mapping; on success the mapping, `joined` with every other participant, and `peer_joined` once to each connected earlier participant |
| Signaling.ConnectionManager.AnnounceJoin | websocket_manager.py:107-133 | once admitted, the mapping is recorded, the joiner gets `joined` listing every other participant, and each connected earlier participant gets `peer_joined` once |
| Signaling.ConnectionManager.HandleLeaveRoom | websocket_manager.py:135-150 | an unmapped socket changes nothing; otherwise the mapping and the participant go, and each remaining connected participant gets `peer_left` once |
| Signaling.ConnectionManager.HandleSignal | websocket_manager.py:152-191 | `INVALID_SIGNAL`, `NOT_IN_ROOM` and `PEER_NOT_FOUND` in that order, else one unchanged `signal` from the sender to the target only |
| Signaling.ConnectionManager.HandleCreateRoom | websocket_manager.py:215-249 | stores a room owned by the sender; if the sender can join, it is mapped and gets `room_created`, otherwise it gets `ROOM_CREATION_FAILED` and no mapping |
| Signaling.ConnectionManager.HandleMessage | websocket_manager.py:251-287 | routing by type, `pong` for a heartbeat, `UNKNOWN_MESSAGE_TYPE`, `INVALID_JSON`, and `SERVER_ERROR` for any exception |
| WebRtcClient.SkipWhitespace | static/webrtc-client.js:108 | the scan from the front stops at the first character that is not white space, having passed only white space |
| WebRtcClient.BackWhitespace | static/webrtc-client.js:108 | the scan from the back stops just after the last character that is not white space, having passed only white space |
| WebRtcClient.TrimStart | static/webrtc-client.js:108 | drops exactly the leading white space |
| WebRtcClient.TrimEnd | static/webrtc-client.js:108 | drops exactly the trailing white space |
| WebRtcClient.TrimSpec | static/webrtc-client.js:108-109 | `trim` keeps a contiguous middle part of its input, cut only at white space |
| WebRtcClient.TrimIdempotent | static/webrtc-client.js:108-109 | trimming twice trims nothing more |
| WebRtcClient.Utf16Length | static/webrtc-client.js:111 | a string's `length` is between its number of characters and twice that |
| WebRtcClient.NewConnection | static/webrtc-client.js:191-241 | the peer's entry is rebound to a new connection, other entries are kept; it offers only when asked and a local stream exists, and fails without one |
| WebRtcClient.OfferToAllSpec | static/webrtc-client.js:161-170 | on `joined` with a stream, one offering connection per listed peer and exactly the offers to them, nothing else changed |
| WebRtcClient.OfferStep | static/webrtc-client.js:191-238 | with a stream one offering connection succeeds, uses one serial, sends one `offer` carrying that serial's local description when the socket is open, and changes nothing outside the registry and the outbox |
| WebRtcClient.OfferToAllRuns | static/webrtc-client.js:167-169 | with a stream every iteration succeeds, the serial counter grows by the number of peers and nothing outside the registry and the outbox changes |
| WebRtcClient.OfferToAllSendsOpen | static/webrtc-client.js:167-169 | with a stream and an open socket the outbox gains exactly one `offer` per listed peer, in list order, with consecutive serials |
| WebRtcClient.OfferToAllSendsClosed | static/webrtc-client.js:167-169 | with the socket not open the loop sends nothing |
| WebRtcClient.OfferToAllRegisters | static/webrtc-client.js:167-169 | with a stream the registry gains exactly the listed peers and keeps every other entry |
| WebRtcClient.OfferToAllOffers | static/webrtc-client.js:167-169 | with a stream every listed peer ends up with an offering connection |
| WebRtcClient.OfferToAllWithoutStream | static/webrtc-client.js:191-198 | without a stream the first connection is registered, nothing is sent and the loop stops |
| WebRtcClient.OffersLength | static/webrtc-client.js:226-238 | the i-th offer goes to the i-th listed peer |
| WebRtcClient.PassiveMessages | static/webrtc-client.js:151-176 | `room_created` and `peer_joined` create no connection and send nothing |
| WebRtcClient.SignalFromUnknownCreatesAnswerer | static/webrtc-client.js:247-252 | a signal from a peer without a connection first creates a non-offering one |
| WebRtcClient.SignalReplies | static/webrtc-client.js:247-267 | an offer from a known peer, or from any peer while a stream exists, is answered with exactly one message, to its sender |
| WebRtcClient.SignalOtherSilent | static/webrtc-client.js:247-272 | an answer, a candidate or any other signal sends nothing, in every session |
| WebRtcClient.CandidateAppliedImmediately | static/webrtc-client.js:270-271 | a candidate is applied at once, whether or not a remote description is set |
| WebRtcClient.LatestCreationWins | static/webrtc-client.js:192-193 | a second creation for a peer replaces the first in the registry, without closing it |
| WebRtcClient.PeerLeftIdempotent | static/webrtc-client.js:179-188 | the peer's connection is closed and forgotten and its tile removed; a repeat changes nothing |
| WebRtcClient.LeaveRoomResets | static/webrtc-client.js:348-372 | `leave_room` is always attempted, every connection is closed, and no connection, tile or room code remains |
| WebRtcClient.HandleErrorLeaves | static/webrtc-client.js:397-404 | the room is left exactly on `ROOM_NOT_FOUND`, `ROOM_EXPIRED` and `ROOM_CLOSED` |
| WebRtcClient.JoinRoomRejectsBadCode | static/webrtc-client.js:107-114 | an empty or wrong-length code sends nothing and changes nothing |
| WebRtcClient.JoinRoomValid | static/webrtc-client.js:116-125 | a valid code is recorded first; `join_room` is sent once, with the trimmed code, only when the camera starts |
| WebRtcClient.SendDropsWhenClosed | static/webrtc-client.js:383-387 | nothing is sent on a socket that is not open |
| WebRtcClient.InitialConsistent | static/webrtc-client.js:2-6 | the page starts with a consistent registry |
| WebRtcClient.NewConnectionConsistent | static/webrtc-client.js:191-193 | creating a connection keeps the registry distinct and open |
| WebRtcClient.OfferToAllConsistent | static/webrtc-client.js:161-170 | `handleJoined` keeps the registry distinct and open |
| WebRtcClient.LeaveRoomConsistent | static/webrtc-client.js:348-372 | leaving keeps the registry consistent |
| WebRtcClient.OnSignalConsistent | static/webrtc-client.js:244-276 | `handleSignal` keeps the registry distinct and open |
| WebRtcClient.DispatchConsistent | static/webrtc-client.js:47-80 | every server message keeps the registry distinct and open |
| WebRtcClient.Client.constructor | static/webrtc-client.js:2-6 | the page's initial globals |
| WebRtcClient.Client.OnOpen | static/webrtc-client.js:25-28 | the socket becomes open |
| WebRtcClient.Client.OnClose | static/webrtc-client.js:40-43 | the socket is no longer open |
| WebRtcClient.Client.SendMessage | static/webrtc-client.js:383-387 | the new state is `Send` of the old |
| WebRtcClient.Client.StartLocalStream | static/webrtc-client.js:129-148 | a granted camera sets the stream and shows the local tile; a refusal throws and changes nothing |
| WebRtcClient.Client.CreateRoom | static/webrtc-client.js:83-104 | `create_room` with the trimmed name, 24 hours and 50 places, only once the camera starts |
| WebRtcClient.Client.JoinRoom | static/webrtc-client.js:107-126 | the new state is the validated join of the old |
| WebRtcClient.Client.CreatePeerConnection | static/webrtc-client.js:191-241 | the new state is `NewConnection` of the old |
| WebRtcClient.Client.HandleJoined | static/webrtc-client.js:161-170 | the loop's state is `OfferToAll` of the old, stopping at the first failure |
| WebRtcClient.Client.HandlePeerLeft | static/webrtc-client.js:179-188 | the new state is the peer's departure from the old |
| WebRtcClient.Client.HandleSignal | static/webrtc-client.js:244-276 | the new state is `OnSignal` of the old |
| WebRtcClient.Client.CloseAll | static/webrtc-client.js:355 | the loop over the registry closes exactly the registered connections and changes nothing else |
| WebRtcClient.Client.LeaveRoom | static/webrtc-client.js:348-372 | `leave_room` is sent, every registered connection is closed, then the room state is reset |
| WebRtcClient.Client.HandleError | static/webrtc-client.js:397-404 | leaves the room exactly on the three fatal codes |
| WebRtcClient.Client.HandleMessage | static/webrtc-client.js:47-80 | the new state is `Dispatch` of the old |
| WebRtcClient.Client.OnTrack | static/webrtc-client.js:201-204 | the peer's tile is shown |
| WebRtcClient.Client.OnIceCandidate | static/webrtc-client.js:207-218 | a candidate is sent to the peer; the final empty event sends nothing |

## Left out

- File I/O, `json.load`/`json.dump`, the thread lock and ISO-date text are not modelled. The file is the in-memory `rooms` map with its key order, and dates are whole seconds.
- An entry whose `expires_at` parses but whose other fields do not load is still an `Unloadable` entry that carries its expiry, so cleanup judges it by that expiry, as the code does.
- The clock is read once per call, as `now`. The source reads it again at each check, so on a boundary race `ROOM_EXPIRED` can be sent. The model does not capture that race.
- `timedelta` overflow for a huge `ttl_hours`, and float lifetimes, are not modelled.
- Error message texts, log output and `print` are not modelled. Only error codes are.
- A `send_json` that raises, and the `disconnect` it then triggers, are not modelled, and neither is `asyncio.gather` concurrency. Each handler is one atomic step.
- Dict iteration order over a room's participants is left open. `joined.peers` and broadcasts are stated up to order.
- A frame that is JSON but not an object, or whose payload is not an object where the handler reads fields of it, is `MalformedFrame`: reading those fields raises and it ends in `SERVER_ERROR`. Fields of an object payload that have the wrong JSON type have no frame of their own, and the paths the source takes for them are not captured. Many of them raise nothing: a numeric `room_code` finds no room (`ROOM_NOT_FOUND`), a numeric `to` finds no peer (`PEER_NOT_FOUND`), and a numeric `signal_type` is forwarded.
- Storage.JsonStorage.Existing: requires every stored entry's `room_code` to equal its key (`KeysMatch`). The program itself only writes such files, but the source also loads a hand-edited file whose entry disagrees with its key, and that file is not modelled.
- `update_room`, `delete_room` and `cleanup_expired_rooms` of `RoomManager` only delegate to the store and are covered there.
- main.py, api.py and start.py are not part of this model. Neither are the environment variables of config.py: the defaults (24 hours, 50 places) are constants.
- Browser and WebRTC internals are not modelled:
  - the DOM, alerts, the clipboard and the media toggles;
  - `onconnectionstatechange` and `beforeunload`;
  - the interleaving of async handlers at `await` points;
  - JavaScript property names inherited by the `peerConnections` object.
- The engine is assumed to accept every description and candidate it is given, and to create every offer and answer asked of it. Inside `handleSignal`'s `try` a rejection is caught and only logged by the source, while the model still records the step as applied.
- A rejected `createOffer` or `setLocalDescription` in `createPeerConnection` is not caught by the source: it rejects `createPeerConnection`, stops the `handleJoined` loop and rejects `handleSignal`. The model does not capture such an engine rejection; `createPeerConnection` fails in the model only when there is no local stream.
- SDP contents are left out: a local description is referred to by its connection's serial.
- Signaling.ConnectionManager.HandleCreateRoom: when room creation raises, the contract says only that the entry under some six-character charset code cannot be loaded, not which drawn code hit it.
