/** The socket.io message catalogue shared by server/be.js and client/FE.jsx:
    what a client sends (Request), what the server emits (Event), their wire
    names, and the relay's renaming of the four point-to-point kinds. */
module Protocol {
  import opened Wrappers

  /** A socket.io connection id. socket.io never hands out an empty id. */
  type SocketId = s: string | s != [] witness "0"

  type Email = string

  /** SDP text, treated as an opaque token: nothing here looks inside it. */
  type Sdp = string

  /** The identity tuple a client joins with, plus the connection it joined on. */
  datatype Identity = Identity(email: Email, displayName: string, photoURL: string, id: SocketId)

  /** Client to server. An answer may be `undefined` on the wire: `getAnswer`
      returns nothing when its guard fails, and the client sends that along. */
  datatype Request =
    | RoomJoin(email: Email, displayName: string, photoURL: string, room: string)
    | UserCall(to: string, offer: Sdp)
    | CallAccept(to: string, ans: Option<Sdp>)
    | NegoNeed(to: string, offer: Sdp)
    | NegoDone(to: string, ans: Option<Sdp>)
    | CameraToggle(id: string, state: string, room: string)
    | RoomLeave(room: string)

  /** Server to client. `UserLeave.email` is `undefined` when the leaving
      socket had no email on record. */
  datatype Event =
    | UserJoined(who: Identity)
    | UserUpdate(joinerEmail: Email, participantsId: seq<SocketId>, participants: seq<Option<Identity>>)
    | UserLeave(email: Option<Email>, id: SocketId)
    | IncomingCall(from: SocketId, offer: Sdp)
    | CallAccepted(from: SocketId, ans: Option<Sdp>)
    | NegoNeeded(from: SocketId, offer: Sdp)
    | NegoFinal(from: SocketId, ans: Option<Sdp>)
    | CameraToggled(peerId: string, state: string)

  function RequestName(req: Request): string {
    match req
    case RoomJoin(_, _, _, _) => "room:join"
    case UserCall(_, _) => "user:call"
    case CallAccept(_, _) => "call:accepted"
    case NegoNeed(_, _) => "peer:nego:needed"
    case NegoDone(_, _) => "peer:nego:done"
    case CameraToggle(_, _, _) => "user:camera:toogle"
    case RoomLeave(_) => "room:leave"
  }

  function EventName(e: Event): string {
    match e
    case UserJoined(_) => "user:joined"
    case UserUpdate(_, _, _) => "user:update"
    case UserLeave(_, _) => "user:leave"
    case IncomingCall(_, _) => "incomming:call"
    case CallAccepted(_, _) => "call:accepted"
    case NegoNeeded(_, _) => "peer:nego:needed"
    case NegoFinal(_, _) => "peer:nego:final"
    case CameraToggled(_, _) => "user:camera:toogle"
  }

  /** The relay's renaming table: two kinds change name, every other keeps it. */
  function Rename(name: string): string {
    if name == "user:call" then "incomming:call"
    else if name == "peer:nego:done" then "peer:nego:final"
    else name
  }

  /** The four kinds the server forwards to a single addressee. */
  predicate IsRelay(req: Request) {
    req.UserCall? || req.CallAccept? || req.NegoNeed? || req.NegoDone?
  }

  /** The sender recorded in a forwarded event, if the event is one. */
  function Origin(e: Event): Option<SocketId> {
    match e
    case IncomingCall(from, _) => Some(from)
    case CallAccepted(from, _) => Some(from)
    case NegoNeeded(from, _) => Some(from)
    case NegoFinal(from, _) => Some(from)
    case _ => None
  }

  /** What a receiver can rebuild of the original request from a forwarded
      event, given the address the request named. */
  function Unforward(e: Event, to: string): Option<Request> {
    match e
    case IncomingCall(_, offer) => Some(UserCall(to, offer))
    case CallAccepted(_, ans) => Some(CallAccept(to, ans))
    case NegoNeeded(_, offer) => Some(NegoNeed(to, offer))
    case NegoFinal(_, ans) => Some(NegoDone(to, ans))
    case _ => None
  }

  /** The payload the server emits for a relayed request from `from`:
      `{from: socket.id, offer}` or `{from: socket.id, ans}`. */
  function Forward(from: SocketId, req: Request): (e: Event)
    requires IsRelay(req)
    ensures Origin(e) == Some(from)
    ensures Unforward(e, req.to) == Some(req)
    ensures EventName(e) == Rename(RequestName(req))
  {
    match req
    case UserCall(_, offer) => IncomingCall(from, offer)
    case CallAccept(_, ans) => CallAccepted(from, ans)
    case NegoNeed(_, offer) => NegoNeeded(from, offer)
    case NegoDone(_, ans) => NegoFinal(from, ans)
  }
}
