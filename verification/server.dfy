/** The server's room registry and signalling relay (server/be.js).

    The three module-level maps of the source become the first three fields
    of `State`. The fourth field is socket.io's own bookkeeping of which
    sockets have joined which broadcast group: it decides who an
    `io.to(name).emit(...)` reaches, and it is changed by `socket.join` and
    `socket.leave`, which the handlers call at definite points. Every handler
    is a pure function from the state, the sending socket and the request to
    the next state and the emits it made, in order. */
module Server {
  import opened Wrappers
  import opened Seqs
  import opened Protocol

  datatype State = State(
    identities: map<Email, Identity>,     // emailToSocketIdDataMap
    emails: map<SocketId, Email>,         // socketidToEmailMap
    rooms: map<string, seq<SocketId>>,    // roomToParticipantsMap, each Set in insertion order
    groups: map<string, set<SocketId>>)   // socket.io broadcast groups

  /** One `io.to(to).emit(...)`: the address, the sockets in that group at the
      moment of emission, and the event. */
  datatype Emit = Emit(to: string, audience: set<SocketId>, event: Event)

  /** A handler either returns normally, or throws a TypeError part-way, in
      which case the writes it made before the throw stay in the maps. */
  datatype Outcome =
    | Done(state: State, out: seq<Emit>)
    | Threw(state: State)

  const Empty := State(map[], map[], map[], map[])

  /** Who `io.to(name)` reaches right now. */
  function Audience(s: State, name: string): set<SocketId> {
    if name in s.groups then s.groups[name] else {}
  }

  /** `Array.from(roomToParticipantsMap.get(room))`, or nothing if there is no entry. */
  function Members(s: State, room: string): seq<SocketId> {
    if room in s.rooms then s.rooms[room] else []
  }

  /** `emailToSocketIdDataMap.get(socketidToEmailMap.get(id))`: undefined when
      either lookup misses. */
  function Resolve(s: State, id: SocketId): Option<Identity> {
    if id in s.emails && s.emails[id] in s.identities then Some(s.identities[s.emails[id]]) else None
  }

  /** Every room entry is non-empty, holds no socket twice, and each member is
      in the room's broadcast group. */
  predicate Consistent(s: State) {
    forall room :: room in s.rooms ==>
      && |s.rooms[room]| > 0
      && NoDuplicates(s.rooms[room])
      && (forall m :: m in s.rooms[room] ==> m in Audience(s, room))
  }

  /** `.map(id => emailToSocketIdDataMap.get(socketidToEmailMap.get(id)))`.
      The `.filter(obj => Boolean(obj))` before it drops only empty ids, and
      socket ids are never empty, so it is left out. */
  function LookupAll(s: State, ids: seq<SocketId>): (r: seq<Option<Identity>>)
    ensures |r| == |ids|
    ensures forall i :: 0 <= i < |ids| ==> r[i] == Resolve(s, ids[i])
  {
    if ids == [] then [] else [Resolve(s, ids[0])] + LookupAll(s, ids[1..])
  }

  /** socket.io places every connecting socket in a group named by its own id;
      this is what lets `io.to(to)` reach a single socket. */
  function Connect(s: State, c: SocketId): (r: State)
    ensures Audience(r, c) == Audience(s, c) + {c}
    ensures forall name :: name != c ==> Audience(r, name) == Audience(s, name)
    ensures r.identities == s.identities && r.emails == s.emails && r.rooms == s.rooms
  {
    s.(groups := s.groups[c := Audience(s, c) + {c}])
  }

  /** `socket.leave(room)`; socket.io drops a group once it is empty. */
  function LeaveGroup(groups: map<string, set<SocketId>>, room: string, c: SocketId): (r: map<string, set<SocketId>>)
    ensures room in r ==> room in groups && r[room] == groups[room] - {c} && r[room] != {}
    ensures room in groups && groups[room] - {c} != {} ==> room in r
    ensures forall n :: n != room ==> (n in r <==> n in groups)
    ensures forall n :: n != room && n in r ==> r[n] == groups[n]
  {
    if room !in groups then groups
    else
      var rest := groups[room] - {c};
      if rest == {} then groups - {room} else groups[room := rest]
  }

  /** The `room:join` handler. */
  function Join(s: State, c: SocketId, email: Email, displayName: string, photoURL: string, room: string): (r: Outcome)
    ensures r.Done?
    // the joiner's identity is (re)written whether or not it was already a member
    ensures r.state.identities == s.identities[email := Identity(email, displayName, photoURL, c)]
    ensures r.state.emails == s.emails[c := email]
    ensures Resolve(r.state, c) == Some(Identity(email, displayName, photoURL, c))
    // user:joined goes out first, to the group as it was before the joiner entered it
    ensures |r.out| > 0 && r.out[0] == Emit(room, Audience(s, room), UserJoined(Identity(email, displayName, photoURL, c)))
    // the joiner enters the room's broadcast group, and no other group changes
    ensures Audience(r.state, room) == Audience(s, room) + {c}
    ensures forall n :: n != room ==> Audience(r.state, n) == Audience(s, n)
    // the joiner is a member afterwards, and no other room changes
    ensures room in r.state.rooms && c in Members(r.state, room)
    ensures forall other :: other != room ==> Members(r.state, other) == Members(s, other)
    ensures r.state.rooms.Keys == s.rooms.Keys + {room}
    // a re-join leaves the member set alone and sends no user:update
    ensures c in Members(s, room) ==> r.state.rooms == s.rooms && |r.out| == 1
    // a first join appends the joiner and sends the full roster to the whole group
    ensures c !in Members(s, room) ==>
      && Members(r.state, room) == Members(s, room) + [c]
      && |r.out| == 2
      && r.out[1].to == room
      && r.out[1].audience == Audience(s, room) + {c}
      && r.out[1].event.UserUpdate?
      && r.out[1].event.joinerEmail == email
      && r.out[1].event.participantsId == Members(r.state, room)
      && |r.out[1].event.participants| == |r.out[1].event.participantsId|
      && (forall i :: 0 <= i < |r.out[1].event.participantsId| ==>
            r.out[1].event.participants[i] == Resolve(r.state, r.out[1].event.participantsId[i]))
  {
    var who := Identity(email, displayName, photoURL, c);
    var joined := Emit(room, Audience(s, room), UserJoined(who));
    var s1 := s.(identities := s.identities[email := who],
                 groups := s.groups[room := Audience(s, room) + {c}],
                 emails := s.emails[c := email]);
    var members := Members(s, room);
    if c in members then
      // the room already has an entry (it holds c), so nothing is created
      Done(s1, [joined])
    else
      var members' := members + [c];
      var s2 := s1.(rooms := s1.rooms[room := members']);
      var update := UserUpdate(email, members', LookupAll(s2, members'));
      Done(s2, [joined, Emit(room, Audience(s2, room), update)])
  }

  /** The `room:leave` handler. It reads the sender's email, deletes both
      identity entries, and only then touches the room entry, so a room with
      no entry throws after the identity maps were already cleared. */
  function Leave(s: State, c: SocketId, room: string): (r: Outcome)
    ensures r.Threw? <==> room !in s.rooms
    ensures r.state.emails == s.emails - {c}
    ensures c in s.emails ==> r.state.identities == s.identities - {s.emails[c]}
    ensures c !in s.emails ==> r.state.identities == s.identities
    ensures r.Threw? ==> r.state.rooms == s.rooms && r.state.groups == s.groups
    ensures r.Done? ==>
      // the sender is gone from the room, and nobody else is
      && c !in Members(r.state, room)
      && (forall m :: m in Members(s, room) && m != c ==> m in Members(r.state, room))
      && (forall m :: m in Members(r.state, room) ==> m in Members(s, room))
      // the entry is deleted exactly when the sender was its last member
      && (room !in r.state.rooms <==> forall m :: m in Members(s, room) ==> m == c)
      && (forall other :: other != room ==> Members(r.state, other) == Members(s, other))
      && (forall other :: other != room ==> (other in r.state.rooms <==> other in s.rooms))
      // the remaining members keep their insertion order (see RemoveAppend)
      && (room in r.state.rooms ==> r.state.rooms[room] == Remove(s.rooms[room], c))
      // user:leave is sent before socket.leave, so the sender's group still holds it
      && r.out == [Emit(room, Audience(s, room), UserLeave(if c in s.emails then Some(s.emails[c]) else None, c))]
      // then the sender alone leaves the room's broadcast group, and no other group changes
      && Audience(r.state, room) == Audience(s, room) - {c}
      && (forall n :: n != room ==> Audience(r.state, n) == Audience(s, n))
  {
    var email := if c in s.emails then Some(s.emails[c]) else None;
    var s1 := s.(identities := if email.Some? then s.identities - {email.value} else s.identities,
                 emails := s.emails - {c});
    if room !in s1.rooms then
      Threw(s1)
    else
      var rest := Remove(s1.rooms[room], c);
      assert |rest| > 0 ==> rest[0] in rest;
      var s2 := s1.(rooms := if |rest| == 0 then s1.rooms - {room} else s1.rooms[room := rest]);
      var left := Emit(room, Audience(s2, room), UserLeave(email, c));
      Done(s2.(groups := LeaveGroup(s2.groups, room, c)), [left])
  }

  /** A relayed request: one emit to the addressee, state untouched. An
      addressee that is not connected has an empty group: nobody receives it. */
  function Relay(s: State, c: SocketId, req: Request): (r: Outcome)
    requires IsRelay(req)
    ensures r.Done? && r.state == s && |r.out| == 1
    ensures r.out[0].to == req.to && r.out[0].audience == Audience(s, req.to)
    ensures Origin(r.out[0].event) == Some(c)
    ensures Unforward(r.out[0].event, req.to) == Some(req)
    ensures EventName(r.out[0].event) == Rename(RequestName(req))
  {
    Done(s, [Emit(req.to, Audience(s, req.to), Forward(c, req))])
  }

  /** Dispatch one request from socket `c` to its handler. */
  function Handle(s: State, c: SocketId, req: Request): (r: Outcome)
    ensures r.Threw? <==> req.RoomLeave? && req.room !in s.rooms
    ensures !req.RoomJoin? && !req.RoomLeave? ==> r.Done? && r.state == s && |r.out| == 1
    ensures IsRelay(req) ==>
      && r.out[0].to == req.to
      && Origin(r.out[0].event) == Some(c)
      && Unforward(r.out[0].event, req.to) == Some(req)
    // the camera hint goes to the named room, carrying the payload's id, not the sender's
    ensures req.CameraToggle? ==>
      r.out[0] == Emit(req.room, Audience(s, req.room), CameraToggled(req.id, req.state))
  {
    match req
    case RoomJoin(email, displayName, photoURL, room) => Join(s, c, email, displayName, photoURL, room)
    case RoomLeave(room) => Leave(s, c, room)
    case CameraToggle(id, state, room) => Done(s, [Emit(room, Audience(s, room), CameraToggled(id, state))])
    case UserCall(_, _) => Relay(s, c, req)
    case CallAccept(_, _) => Relay(s, c, req)
    case NegoNeed(_, _) => Relay(s, c, req)
    case NegoDone(_, _) => Relay(s, c, req)
  }

  /** Every handler keeps the room entries non-empty, duplicate-free and
      inside their broadcast groups; a throwing `room:leave` has not touched
      the rooms yet, so it keeps them too. */
  lemma HandlePreservesConsistent(s: State, c: SocketId, req: Request)
    requires Consistent(s)
    ensures Consistent(Handle(s, c, req).state)
  {
    var s' := Handle(s, c, req).state;
    match req
    case RoomJoin(email, displayName, photoURL, room) =>
      forall r | r in s'.rooms
        ensures |s'.rooms[r]| > 0 && NoDuplicates(s'.rooms[r])
        ensures forall m :: m in s'.rooms[r] ==> m in Audience(s', r)
      {
        if r == room && c !in Members(s, room) {
          assert s'.rooms[r] == Members(s, room) + [c];
        } else {
          assert s'.rooms[r] == s.rooms[r];
        }
      }
    case RoomLeave(room) =>
      if room in s.rooms {
        forall r | r in s'.rooms
          ensures |s'.rooms[r]| > 0 && NoDuplicates(s'.rooms[r])
          ensures forall m :: m in s'.rooms[r] ==> m in Audience(s', r)
        {
          if r == room {
            assert s'.rooms[r] == Remove(s.rooms[room], c);
          } else {
            assert s'.rooms[r] == s.rooms[r];
          }
        }
      }
    case _ =>
  }

  /** Connecting only adds a socket to its own group. */
  lemma ConnectPreservesConsistent(s: State, c: SocketId)
    requires Consistent(s)
    ensures Consistent(Connect(s, c))
  {
  }
}
