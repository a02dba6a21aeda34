/** Client and server together: messages a `RoomPage` sends pass through
    the server's handlers and come back out as events another `RoomPage`
    handles. */
module Signalling {
  import opened Wrappers
  import opened Protocol
  import opened PeerLink
  import opened RoomSession
  import Server

  /** Two sockets joining an empty room in turn: the first one's
      `user:joined` reaches nobody, the second one's reaches only the first,
      and the roster sent after the second join lists both, in join order,
      to both. */
  lemma JoinOrder(s: Server.State, room: string, a: Identity, b: Identity)
    requires Server.Members(s, room) == [] && Server.Audience(s, room) == {}
    requires a.id != b.id
    ensures var j1 := Server.Handle(s, a.id, RoomJoin(a.email, a.displayName, a.photoURL, room));
            var j2 := Server.Handle(j1.state, b.id, RoomJoin(b.email, b.displayName, b.photoURL, room));
            && j1.out[0] == Server.Emit(room, {}, UserJoined(a))
            && j2.out[0] == Server.Emit(room, {a.id}, UserJoined(b))
            && |j2.out| == 2
            && j2.out[1].audience == {a.id, b.id}
            && j2.out[1].event.participantsId == [a.id, b.id]
            && j2.out[1].event.participants[1] == Some(b)
            && (a.email != b.email ==> j2.out[1].event.participants[0] == Some(a))
  {
  }

  /** A first call between two connected pages whose connections to each
      other are `stable`, A's not yet carrying the local tracks: A's offer
      is relayed to B as `incomming:call`, B's answer comes back as
      `call:accepted`, and A ends `stable` with the retry counter reset;
      each side holds as remote description what the other holds as local
      one. */
  lemma CallThroughRelay(srv: Server.State, a: Session, b: Session, idA: SocketId, idB: SocketId, offer: Sdp, ans: Sdp)
    requires idA in Server.Audience(srv, idA) && idB in Server.Audience(srv, idB)
    requires idB in a.peers && a.peers[idB].signaling == Stable && !a.peers[idB].sending
    requires idA in b.peers && b.peers[idA].signaling == Stable
    ensures
      var c1 := OnCallUser(a, idB, offer);
      && c1.Ok? && c1.value.effects == [Send(UserCall(idB, offer))]
      && var r1 := Server.Handle(srv, idA, UserCall(idB, offer));
      && idB in r1.out[0].audience && r1.out[0].event == IncomingCall(idA, offer)
      && var c2 := OnIncomingCall(b, idA, offer, ans);
      && c2.Ok? && c2.value.effects == [Send(CallAccept(idA, Some(ans)))]
      && var r2 := Server.Handle(srv, idB, CallAccept(idA, Some(ans)));
      && idA in r2.out[0].audience && r2.out[0].event == CallAccepted(idB, Some(ans))
      && var c3 := OnCallAccepted(c1.value.session, idB, Some(ans), offer);
      && c3.session.peers[idB].signaling == Stable
      && c3.session.retryCallCount == 0
      && c3.session.peers[idB].localDescription == c2.value.session.peers[idA].remoteDescription
      && c3.session.peers[idB].remoteDescription == c2.value.session.peers[idA].localDescription
  {
  }

  /** A socket leaving a room it shares with others: the remaining members
      are told, and on their side the connection to the leaver is closed and
      its remote stream set to null. */
  lemma LeaveTearsDownOnOthers(s: Server.State, c: SocketId, room: string, other: Session, o: SocketId)
    requires Server.Consistent(s)
    requires o in Server.Members(s, room) && o != c
    requires c in other.peers
    ensures var r := Server.Handle(s, c, RoomLeave(room));
            && r.Done?
            && o in r.out[0].audience
            && r.out[0].event.UserLeave?
            && r.out[0].event.id == c
            && var t := OnUserLeave(other, r.out[0].event.email, r.out[0].event.id);
            && t.Ok?
            && c !in t.value.session.peers
            && t.value.session.remoteStream[c] == None
            && t.value.effects == [Close(c)]
  {
  }

  /** Teardown is not idempotent: once an ICE `disconnected` has removed a
      connection, the `user:leave` for the same peer throws. */
  lemma TeardownTwiceThrows(s: Session, key: SocketId, email: Option<Email>)
    requires key in s.peers
    ensures var t := OnIceStateChange(s, key, Disconnected);
            && t.Ok?
            && OnUserLeave(t.value.session, email, key).Err?
  {
  }

  /** A stray answer reaching a `stable` connection is refused by the guard,
      and while the counter is below 3 it re-places the call rather than
      doing nothing. */
  lemma StrayAnswerRetries(s: Session, from: SocketId, ans: Option<Sdp>, created: Sdp)
    requires from in s.peers && s.peers[from].signaling == Stable
    requires s.retryCallCount < RetryBound
    ensures var r := OnCallAccepted(s, from, ans, created);
            && r.effects == [Send(UserCall(from, created))]
            && r.session.retryCallCount == s.retryCallCount + 1
            && r.session.peers[from].signaling == HaveLocalOffer
  {
  }

  /** With the counter at 3 the same stray answer is taken as success: the
      tracks are sent on a connection that never got an answer, and the
      counter goes back to 0. */
  lemma StrayAnswerAfterExhaustion(s: Session, from: SocketId, ans: Option<Sdp>, created: Sdp)
    requires from in s.peers && s.peers[from].signaling == Stable && !s.peers[from].sending
    requires s.retryCallCount == RetryBound
    requires s.hasLocalStream
    ensures var r := OnCallAccepted(s, from, ans, created);
            && r.effects == [AddTracks(from)]
            && r.session.retryCallCount == 0
            && r.session.peers[from] == s.peers[from].(sending := true)
  {
  }

  /** A connection whose call already completed gets a stray answer, which
      re-places the call; when the real answer then arrives it is applied,
      but adding the tracks a second time throws inside the try/catch, so no
      tracks go out and the counter is not reset. */
  lemma SecondCompletionKeepsCounter(s: Session, from: SocketId, stray: Option<Sdp>, ans: Sdp, created: Sdp)
    requires from in s.peers && s.peers[from].signaling == Stable && s.peers[from].sending
    requires s.retryCallCount < RetryBound
    requires s.hasLocalStream
    ensures var r1 := OnCallAccepted(s, from, stray, created);
            var r2 := OnCallAccepted(r1.session, from, Some(ans), created);
            && r1.effects == [Send(UserCall(from, created))]
            && r2.effects == []
            && r2.session.peers[from].signaling == Stable
            && r2.session.peers[from].remoteDescription == Some(ans)
            && r2.session.retryCallCount == s.retryCallCount + 1
  {
  }
}
