# Room signalling: server registry and client peer state machine

A Dafny model of the signalling core of a small WebRTC meeting app. It has two parts.

- **The socket.io server** (`server/be.js`) keeps three maps: email → identity record, socket id → email, and room → set of socket ids. It handles `room:join` and `room:leave` and broadcasts `user:joined`, `user:update` and `user:leave` to the room. It relays the four point-to-point negotiation messages to one addressee with the sender's id attached, and broadcasts a camera on/off hint.
- **The React client** (`client/FE.jsx`) keeps one `PeerService` per remote participant. Each one guards the offer/answer exchange on the connection's signalling state. The `RoomPage` handlers create and tear down these connections when it receives roster, call and renegotiation events, and they retry a refused answer a bounded number of times.

Both parts are pure transition functions. Each one maps a state and one input to the next state plus the list of messages or effects it produced.

| file | module | models |
|---|---|---|
| `wrappers.dfy` | `Wrappers` | `Option` (undefined/null) and `Result` (a handler that throws) |
| `seqs.dfy` | `Seqs` | insertion-ordered sets as duplicate-free sequences; `Set.delete`; arrays with undefined entries |
| `protocol.dfy` | `Protocol` | the message catalogue, wire names, and the relay's renaming and its inverse |
| `server.dfy` | `Server` | the three registry maps, socket.io broadcast groups, and every server handler |
| `server_trace.dfy` | `RoomTrace` | server runs: members are the sockets that joined minus those that left; the invariants hold over any run |
| `peer_link.dfy` | `PeerLink` | the W3C RTCSignalingState transitions and `PeerService.getAnswer` / `setRemoteDescription` / `generateOffer` |
| `room_session.dfy` | `RoomSession` | the `RoomPage` handlers, the dispatcher, and the page invariant |
| `signalling.dfy` | `Signalling` | client and server together: join order, a call through the relay, leave teardown, stray answers |

Modelling choices:

- **Socket ids** are non-empty strings, because socket.io never issues an empty id. So the `filter(obj => Boolean(obj))` at `server/be.js:42` removes nothing and is not modelled.
- **Room member sets** are duplicate-free sequences. A JavaScript `Set` keeps insertion order, and `Array.from` exposes that order in `participantsId`.
- **Broadcast groups.** The server state also records socket.io's broadcast groups. A group decides who an `io.to(name).emit` reaches. Each emit records its audience at the moment it is made. socket.io puts every connected socket in a group named by its own id. `Server.Connect` models that, and a run of the server (`RoomTrace.Replay`) interleaves connections with requests.
- **Throws in the server.** `room:leave` for a room with no entry throws a TypeError at `server/be.js:76`. By then it has already deleted the two identity entries. `Server.Leave` returns `Threw` with exactly those writes applied. Nothing catches the error in the process, so `RoomTrace.Replay` ends the run there.
- **Throws in the client.** A client handler that throws outside a try/catch returns `Err(Fault)`. A handler whose own try/catch catches the error changes nothing beyond what it had already changed. The fault records where the error surfaces, and that decides whether the page survives it:
  - A throw inside a `setPeersData` updater (`client/FE.jsx:164-165`, `317`) is rethrown by React while it renders. There is no error boundary, so the page unmounts and `RoomSession.Run` stops.
  - A rejected promise of an `async` handler (`handleCallUser`, `handleIncommingCall`, `handleNegoNeeded`) is never awaited. It changes nothing, and the page handles the next event.
  - So does the synchronous throw of the roster filter in the `user:update` listener (`client/FE.jsx:176`).
- **SDP.** SDP blobs are opaque strings. The description that the browser's `createOffer` or `createAnswer` would return is a parameter of the input that needs one.
- **Answers can be `undefined`.** When `getAnswer`'s guard fails, the client sends `undefined` as the answer. A connection in `have-local-offer` then rejects it, because an `RTCSessionDescription` cannot be built from `undefined`.
- **The roster comparison** (`client/FE.jsx:178`) compares `JSON.stringify` output, which follows key order. `user:joined` payloads and `user:update` records list the same keys in different orders. Each participant therefore carries a `Layout` tag, and sequence equality on `Participant` is the stringify comparison.
- **Timers.** Work handed to `setTimeout` becomes a `Schedule` effect. It runs later, as a separate `Timer` input.

Where the code differs from a stricter reading of the protocol, the code is modelled:

- A socket may sit in several rooms, and `room:leave` deletes its email entries while it is still listed in the other rooms (`RoomTrace.SecondRoomKeepsUnresolvedMember`).
- Identities are keyed by email, so a stale socket's leave deletes the record of the same user's newer socket (`RoomTrace.StaleLeaveDropsReconnectedIdentity`).
- `user:update` does not drop unresolved ids: they appear as `undefined`, and the client's roster handler then throws.
- Only ICE state `disconnected` tears a connection down; `failed` does not.
- A stray answer at a `stable` connection is not a no-op: it re-places the call while the counter is below 3 (`Signalling.StrayAnswerRetries`).
- Teardown is not idempotent: a `user:leave` after an ICE teardown throws (`Signalling.TeardownTwiceThrows`).
- The retry counter is a single counter for the whole page, not one per peer.
- A connection that completes a second time (after a stray answer re-placed its call) throws at `addTrack`; the catch swallows it, so the counter is not reset (`Signalling.SecondCompletionKeepsCounter`).
- There is no disconnect handler.

## Model

| member | source | states |
|---|---|---|
| Seqs.Remove | server/be.js:76 | deleting a socket from a room's ordered set removes exactly that socket, keeps every other one and keeps the set duplicate-free |
| Seqs.RemoveAppend | server/be.js:76 | deletion keeps the remaining sockets in insertion order: deleting from a concatenation deletes from each part, so `Array.from` lists the rest in join order |
| Seqs.AllDefined | client/FE.jsx:176 | the roster is usable exactly when every entry is defined, and then it holds the same identities in the same order; one `undefined` entry makes `p.email` throw |
| Protocol.Forward | server/be.js:49-65 | a relayed event carries the sender as `from` and loses nothing: the original request is recovered from it and the addressee; its name is the request's name after renaming `user:call`→`incomming:call` and `peer:nego:done`→`peer:nego:final` |
| Server.LookupAll | server/be.js:42-44 | the roster's `participants` has one entry per id, each the identity found through socket id → email → record, or undefined when either lookup misses |
| Server.Connect | server/be.js:8 | a connecting socket enters exactly its own-id group, so `io.to(its id)` reaches it; no other group and none of the three maps changes |
| Server.Join | server/be.js:15-47 | identity and email entries are always (re)written; `user:joined` goes first, to the group before the joiner enters it; the joiner ends up a member, the room's broadcast group gains exactly the joiner, no other room or group changes, and no room entry other than the joined one appears; a re-join leaves the set alone and sends no `user:update`; a first join appends the joiner and sends the whole group a roster whose ids are the room's members and whose identities are their element-wise lookups |
| Server.Leave | server/be.js:71-82 | throws exactly when the room has no entry, after both identity entries are already deleted; otherwise removes only the sender from the room, keeping the others in insertion order, deletes the entry exactly when the sender was its last member, and sends `user:leave {email, id}` to the group before the sender leaves it; afterwards the group has lost exactly the sender; no other room entry or group changes, appears or disappears |
| Server.LeaveGroup | server/be.js:81 | `socket.leave(room)` takes only that socket out of that group, drops the group once it is empty, and leaves every other group as it was |
| Server.Relay | server/be.js:49-65 | one emit, to the addressee's group, carrying the sender and the unchanged payload; the registry is untouched |
| Server.Handle | server/be.js:15-82 | only `room:leave` on a room without entry throws; relays and the camera hint change no state and emit once; the camera hint goes to the named room with the payload's own id |
| Server.HandlePreservesConsistent | server/be.js:30-79 | every handler keeps room entries non-empty, duplicate-free, and contained in their broadcast groups |
| RoomTrace.Apply | server/be.js:8-82 | only a `room:leave` for a room with no entry throws; a connection emits nothing, leaves the three maps alone and adds the socket to its own group only; relays and the camera hint leave the state alone and emit once |
| RoomTrace.Replay | server/be.js:8-82 | events are handled one at a time; a throw, which nothing catches, ends the run, and only a `room:leave` can end it |
| RoomTrace.ReplayContinues | server/be.js:8-82 | a handled event's state is the state the rest of the run starts from |
| RoomTrace.ReplayStopsAtThrow | server/be.js:71-77 | once an event throws, nothing after it is handled: the run ends |
| RoomTrace.StepMembers | server/be.js:30-79 | one event changes a room's member set by exactly: add the joiner, remove the leaver, or nothing (a connection changes no room) |
| RoomTrace.ReplayMembers | server/be.js:15-82 | over any run that does not throw, a room's members are the sockets there at the start plus those that joined, minus those that left later |
| RoomTrace.ApplyPreservesConsistent | server/be.js:8-82 | a connection and every request handler keep the registry consistent |
| RoomTrace.ReplayConsistent | server/be.js:30-79 | over any run that does not throw, the registry stays consistent; in particular no room lists a socket twice |
| RoomTrace.SecondRoomKeepsUnresolvedMember | server/be.js:71-79 | a socket that joined two rooms and left one is still a member of the other but no longer resolves to an identity |
| RoomTrace.StaleLeaveDropsReconnectedIdentity | server/be.js:72-75 | when an old socket leaves after the same email rejoined on a new socket, the new socket stays a member but loses its identity |
| PeerLink.GetAnswer | client/FE.jsx:28-39 | outside `stable`: returns nothing, connection unchanged; from `stable`: offer becomes remote, answer becomes local, the answer is returned, and the connection is `stable` again; no sender is added or removed |
| PeerLink.SetRemoteDescription | client/FE.jsx:41-49 | the `null` sentinel is returned exactly when the state is not `have-local-offer`, with the connection unchanged; an undefined answer is rejected; an applied answer returns to `stable` with the answer as remote description; no sender is added or removed |
| PeerLink.GenerateOffer | client/FE.jsx:51-57 | succeeds exactly outside `have-remote-offer`, and then the connection is in `have-local-offer` with the new offer as local description; no sender is added or removed |
| PeerLink.AnswerGuardMatchesStandard | client/FE.jsx:43-47 | the `have-local-offer` guard accepts exactly the answers the standard's state machine accepts, with the same resulting state |
| PeerLink.OfferGuardStricterThanStandard | client/FE.jsx:30-34 | an answered offer is one the standard accepts, but a second offer in `have-remote-offer` is refused although the standard would take it |
| PeerLink.OfferAnswerRoundTrip | client/FE.jsx:41-57 | from `stable`, `generateOffer` then `setRemoteDescription(ans)` is applied and returns to `stable` holding offer and answer |
| PeerLink.BothSidesAgree | client/FE.jsx:28-57 | after one offer/answer exchange both connections are `stable` and each one's remote description is the other's local one |
| RoomSession.DropEmail | client/FE.jsx:162 | removes every participant with the leaving email and keeps every other participant |
| RoomSession.DropEmailAppend | client/FE.jsx:162 | `filter` keeps order and repeats: filtering a concatenation concatenates the filtered parts |
| RoomSession.OthersOf | client/FE.jsx:176 | the filtered roster holds exactly the snapshot's identities other than the local user's |
| RoomSession.OthersOfAppend | client/FE.jsx:176-178 | the roster filter keeps the snapshot's order, which the `JSON.stringify` comparison sees |
| RoomSession.FiltersOnOne | client/FE.jsx:162-176 | on a single entry each filter keeps it exactly when it passes the test; with the append lemmas this fixes both filters as order-preserving |
| RoomSession.OnUserJoined | client/FE.jsx:139-158 | appends the joiner, gives it a fresh `stable` connection replacing any old one, and schedules a call only when a local stream exists; the user and the local stream are untouched |
| RoomSession.OnUserLeave | client/FE.jsx:160-170 | throws exactly when there is no connection for the id, inside the updater, which ends the page; otherwise removes that connection, sets its remote stream to null without adding any other stream entry, and drops exactly the participants with that email, keeping the rest in order |
| RoomSession.OnParticipants | client/FE.jsx:172-189 | throws on an undefined roster entry, which the page survives; otherwise changes nothing now, and schedules the filtered roster only when it differs from the current list |
| RoomSession.OnApplyRoster | client/FE.jsx:179-187 | every listed participant gets a fresh `stable` connection, other connections are kept, and the list becomes the participant list; the user and the local stream are untouched |
| RoomSession.OnCallUser | client/FE.jsx:202-215 | a known connection outside `have-remote-offer` moves to `have-local-offer` with the offer as local description and its remote description kept, and the offer goes to the callee as `user:call`; unknown ids are skipped; a refused offer rejects the promise, which the page survives |
| RoomSession.OnIncomingCall | client/FE.jsx:217-225 | rejects, survivably, for an unknown caller; a `stable` connection takes the offer as remote and the answer as local description and sends the answer back; otherwise an undefined answer is sent and nothing changes |
| RoomSession.OnCallAccepted | client/FE.jsx:227-248 | a refused answer with the counter below 3 increments the counter and, from `stable`, sets and sends a new offer; an applied answer becomes the remote description; then, with a local stream, the tracks are added once per connection and the counter resets to 0, while a connection that already carries them makes `addTrack` throw, so nothing is sent and the counter keeps its value; without a local stream the counter just resets; caught errors change nothing; the counter never exceeds 3 |
| RoomSession.OnNegotiationNeeded | client/FE.jsx:266-271 | a fresh offer becomes the local description, moves the connection to `have-local-offer` keeping its remote description, and is sent as `peer:nego:needed`; a missing connection or refused offer rejects, survivably |
| RoomSession.OnNegoNeedIncoming | client/FE.jsx:273-289 | the remote stream is cleared first, even for an unknown peer; a `stable` connection ends `stable` with the offer as remote and the answer as local description, and the answer (or undefined) goes back as `peer:nego:done` |
| RoomSession.OnNegoFinal | client/FE.jsx:291-300 | only a defined answer at `have-local-offer` changes anything: it becomes the remote description, the local one is kept, and the connection returns to `stable`; every other case is a no-op |
| RoomSession.OnIceStateChange | client/FE.jsx:311-323 | only `disconnected` tears down, removing exactly that connection and closing it; an already missing connection throws inside the updater, which ends the page |
| RoomSession.OnTrack | client/FE.jsx:335-353 | the event's first stream becomes that peer's remote stream; every other stream entry and every other field is kept, and no other entry appears |
| RoomSession.OnRemoteCameraToggle | client/FE.jsx:355-364 | `off` sets that peer's remote stream to null, keeping the other entries and adding none; any other state changes nothing |
| RoomSession.Handle | client/FE.jsx:302-374 | routes each socket event, timer and connection event to its handler; only `user:leave` and an ICE teardown can end the page, and the handlers with their own try/catch never fail |
| RoomSession.Run | client/FE.jsx:302-374 | inputs are handled in order; only an updater throw stops the run, and only an input that can throw inside an updater can stop it |
| RoomSession.RunContinues | client/FE.jsx:302-374 | a handled input's session is the session the rest of the run starts from |
| RoomSession.RunSkipsSurvivable | client/FE.jsx:202-225 | a rejected promise or a throwing listener leaves the session as it was, and the run goes on from there |
| RoomSession.RunStopsAtFatal | client/FE.jsx:163-166 | an updater throw ends the run with that error, whatever inputs follow |
| RoomSession.RunAppend | client/FE.jsx:302-374 | running two batches is running the first and then the second from where the first ended, unless the page ended |
| RoomSession.RejectedCallDoesNotStopPage | client/FE.jsx:217-225 | an incoming call from an unknown peer changes nothing, and a camera hint after it is still handled |
| RoomSession.HandlePreservesValid | client/FE.jsx:366-396 | every handler keeps the retry counter at most 3 and leaves no connection in `have-remote-offer` |
| RoomSession.RunPreservesValid | client/FE.jsx:233-240 | over any sequence of inputs that does not unmount the page, the retry counter never exceeds 3 and no connection is left in `have-remote-offer` |
| Signalling.JoinOrder | server/be.js:25-45 | A then B join an empty room: A's `user:joined` reaches nobody, B's reaches only A, and the roster after B's join lists both ids in order and goes to both |
| Signalling.CallThroughRelay | client/FE.jsx:202-248 | on a first call, an offer relayed as `incomming:call`, answered, and relayed back as `call:accepted` leaves the caller `stable` with the counter at 0, and each side's remote description is the other's local one |
| Signalling.LeaveTearsDownOnOthers | server/be.js:71-82 | a remaining member receives `user:leave`, and handling it closes the connection to the leaver and nulls its stream |
| Signalling.TeardownTwiceThrows | client/FE.jsx:163-168 | after an ICE teardown, the `user:leave` for the same peer throws |
| Signalling.StrayAnswerRetries | client/FE.jsx:232-236 | an answer at a `stable` connection with the counter below 3 re-places the call and increments the counter |
| Signalling.StrayAnswerAfterExhaustion | client/FE.jsx:237-241 | with the counter at 3, the same stray answer is treated as success: tracks are sent and the counter resets |
| Signalling.SecondCompletionKeepsCounter | client/FE.jsx:227-258 | after a completed call, a stray answer re-places the call; the real answer is then applied, but the second `addTrack` throws inside the try/catch, so no tracks go out and the counter stays incremented |

## Left out

- `handleCameraToggle` (`client/FE.jsx:88-137`): device capture, `srcObject` wiring and `removeTrack` are device and browser I/O. Its `user:camera:toogle` emits and per-peer calls are not modelled either.
- `handleJoinRoom` and the mount/unmount effects (`client/FE.jsx:191-200`, `398-415`): these are React lifecycle. They send `room:join` on mount, and on unmount they close every connection and send `room:leave`.
- The RTCPeerConnection itself: ICE/STUN configuration, SDP content, the `closed` state, and failures of createOffer/createAnswer other than the signalling-state checks. `PeerService`'s `if (this.peer)` checks always hold after construction.
- Track and sender bookkeeping in `sendStreams` (`setSender`): it is reduced to the `AddTracks` effect and a per-connection `sending` flag. A second `sendStreams` on the same connection throws at its first `addTrack`, as the connection already has senders for those tracks; local tracks changed by the camera toggle are not modelled.
- Timers: the 500 ms and 100 ms delays become later `Timer` inputs. The deferred call looks the connection up by id when it fires, instead of holding the object captured at join time.
- React plumbing: stale closures from `useCallback` dependency arrays, batching of state updates, and rendering with `ParticipantBox`. Every handler sees the current state and applies its updates in order.
- RoomSession.RunPreservesValid: the bound of 3 on the retry counter holds for the model, where every handler reads the current counter, and not for `client/FE.jsx` as written. `handleCallAccepted` reads `retryCallCount` from the closure of `useCallback(..., [peersData])` (`client/FE.jsx:233`, `247`), and `peersData` is changed in place, so the callback is not re-created while the counter moves. Four stray answers from four `stable` peers each see the captured value and each re-place the call, leaving the counter at 4.
- Interleaving at `await` points: each handler runs to completion before the next one starts.
- The socket.io transport: connection and disconnection (only the own-id group is modelled), the server `error` listener, the unused `emit` helper (`server/be.js:89-91`), and console logging.
- Undefined `email`, `room` or `state` fields in incoming payloads: every payload field is a string. `null` and `undefined` remote streams are not told apart.
