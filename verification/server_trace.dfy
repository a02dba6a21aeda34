/** Runs of the server: requests handled one at a time, as Node's event loop
    delivers them, and what the room registry looks like afterwards. */
module RoomTrace {
  import opened Wrappers
  import opened Protocol
  import opened Server

  /** One event on the server: a socket connecting, or a request arriving on
      a connected socket. */
  datatype Op =
    | Connection(sender: SocketId)
    | Message(sender: SocketId, req: Request)

  /** What one event does to the state. A connection only enters the socket's
      own-id group; a request goes to its handler. */
  function Apply(s: State, op: Op): (r: Outcome)
    // only a `room:leave` for a room with no entry throws
    ensures r.Threw? <==> op.Message? && op.req.RoomLeave? && op.req.room !in s.rooms
    // a connection emits nothing, touches none of the three maps, and adds the
    // socket to its own group and to no other
    ensures op.Connection? ==>
      && r.out == []
      && r.state.identities == s.identities && r.state.emails == s.emails && r.state.rooms == s.rooms
      && Audience(r.state, op.sender) == Audience(s, op.sender) + {op.sender}
      && (forall n :: n != op.sender ==> Audience(r.state, n) == Audience(s, n))
    // relays and the camera hint leave the state alone and emit once
    ensures op.Message? && !op.req.RoomJoin? && !op.req.RoomLeave? ==> r.Done? && r.state == s && |r.out| == 1
  {
    match op
    case Connection(c) => Done(Connect(s, c), [])
    case Message(c, req) => Handle(s, c, req)
  }

  /** Handle `ops` in order. A TypeError thrown inside a socket.io handler is
      not caught anywhere, so a throw ends the run (None). Only `room:leave`
      can throw, so a run without one always completes. */
  function Replay(s: State, ops: seq<Op>): (r: Option<State>)
    ensures ops == [] ==> r == Some(s)
    ensures r.None? ==> exists i :: 0 <= i < |ops| && ops[i].Message? && ops[i].req.RoomLeave?
    decreases |ops|
  {
    if ops == [] then Some(s)
    else match Apply(s, ops[0])
      case Threw(_) => None
      case Done(s', _) => Replay(s', ops[1..])
  }

  /** A throw ends the run: nothing after it is handled. */
  lemma ReplayStopsAtThrow(s: State, op: Op, rest: seq<Op>)
    requires Apply(s, op).Threw?
    ensures Replay(s, [op] + rest) == None
  {
  }

  /** A handled event carries its state into the rest of the run. */
  lemma ReplayContinues(s: State, op: Op, rest: seq<Op>)
    requires Apply(s, op).Done?
    ensures Replay(s, [op] + rest) == Replay(Apply(s, op).state, rest)
  {
    assert ([op] + rest)[1..] == rest;
  }

  /** The room's member set, forgetting insertion order. */
  function MemberSet(s: State, room: string): set<SocketId> {
    set m | m in Members(s, room)
  }

  /** The reference the registry should agree with: start from a set, add
      every socket that joined `room` and take away every socket that left it. */
  function Expected(start: set<SocketId>, ops: seq<Op>, room: string): set<SocketId>
    decreases |ops|
  {
    if ops == [] then start
    else
      var op := ops[0];
      var next :=
        if op.Message? && op.req.RoomJoin? && op.req.room == room then start + {op.sender}
        else if op.Message? && op.req.RoomLeave? && op.req.room == room then start - {op.sender}
        else start;
      Expected(next, ops[1..], room)
  }

  /** One handled event changes a room's member set by exactly the reference
      step: a connection changes no room. */
  lemma StepMembers(s: State, op: Op, room: string)
    requires Apply(s, op).Done?
    ensures MemberSet(Apply(s, op).state, room) ==
      (if op.Message? && op.req.RoomJoin? && op.req.room == room then MemberSet(s, room) + {op.sender}
       else if op.Message? && op.req.RoomLeave? && op.req.room == room then MemberSet(s, room) - {op.sender}
       else MemberSet(s, room))
  {
  }

  /** Over any run that does not throw, each room's members are exactly the
      sockets that were there at the start or joined, minus those that left
      afterwards: no socket leaks and none is lost. */
  lemma {:induction false} ReplayMembers(s: State, ops: seq<Op>, room: string)
    requires Replay(s, ops).Some?
    ensures MemberSet(Replay(s, ops).value, room) == Expected(MemberSet(s, room), ops, room)
    decreases |ops|
  {
    if ops != [] {
      StepMembers(s, ops[0], room);
      ReplayMembers(Apply(s, ops[0]).state, ops[1..], room);
    }
  }

  /** One event keeps the registry consistent. */
  lemma ApplyPreservesConsistent(s: State, op: Op)
    requires Consistent(s)
    ensures Consistent(Apply(s, op).state)
  {
    match op
    case Connection(c) => ConnectPreservesConsistent(s, c);
    case Message(c, req) => HandlePreservesConsistent(s, c, req);
  }

  /** Starting from a consistent registry, every run that does not throw ends
      in a consistent one: in particular no room ever lists a socket twice. */
  lemma {:induction false} ReplayConsistent(s: State, ops: seq<Op>)
    requires Consistent(s)
    requires Replay(s, ops).Some?
    ensures Consistent(Replay(s, ops).value)
    decreases |ops|
  {
    if ops != [] {
      ApplyPreservesConsistent(s, ops[0]);
      ReplayConsistent(Apply(s, ops[0]).state, ops[1..]);
    }
  }

  /** The registry does not keep the invariant "every member resolves to an
      identity": a socket may join two rooms, and leaving one of them deletes
      its email entry while it is still listed in the other. */
  lemma SecondRoomKeepsUnresolvedMember()
    ensures var s1 := Handle(Empty, "a", RoomJoin("e", "A", "p", "r1")).state;
            var s2 := Handle(s1, "a", RoomJoin("e", "A", "p", "r2")).state;
            var r := Handle(s2, "a", RoomLeave("r1"));
            && r.Done?
            && "a" in Members(r.state, "r2")
            && Resolve(r.state, "a") == None
  {
  }

  /** Identities are keyed by email: when a user reconnects on a new socket and
      the old socket then leaves, the new socket's identity record goes too. */
  lemma StaleLeaveDropsReconnectedIdentity()
    ensures var s1 := Handle(Empty, "a", RoomJoin("e", "A", "p", "r")).state;
            var s2 := Handle(s1, "b", RoomJoin("e", "A", "p", "r")).state;
            var r := Handle(s2, "a", RoomLeave("r"));
            && r.Done?
            && "b" in Members(r.state, "r")
            && Resolve(r.state, "b") == None
  {
  }
}
