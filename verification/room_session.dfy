/** The client's room session: the `RoomPage` handlers of client/FE.jsx as
    transitions over one record.

    React state becomes fields of `Session`; each handler returns the next
    session and the effects it asked for, in order: messages sent on the
    socket, work deferred with `setTimeout` (run later as a separate `Timer`
    input), tracks added to a connection, connections closed. A handler that
    throws outside a try/catch ends in `Err`, whose `Fault` tells whether the
    page survives it; one whose throw is caught by its own try/catch changes
    nothing it had not already changed. Descriptions
    the browser would create are parameters of the input that needs them. */
module RoomSession {
  import opened Wrappers
  import opened Seqs
  import opened Protocol
  import opened PeerLink

  /** A MediaStream handle, opaque. */
  type Stream = string

  /** The key order of a participant object, which `JSON.stringify` follows:
      a `user:joined` payload is {email, displayName, photoURL, id}, a record
      in `user:update` is {id, displayName, photoURL, email}. */
  datatype Layout = JoinedLayout | RecordLayout

  /** An entry of `participantsArray`. Two arrays stringify to the same JSON
      exactly when their entries are equal as values of this type. */
  datatype Participant = Participant(who: Identity, layout: Layout)

  datatype Session = Session(
    selfEmail: Email,                          // userAuth.email
    hasLocalStream: bool,                      // VideoStreamRef.current is set
    peers: map<string, Peer>,                  // peersData
    remoteStream: map<string, Option<Stream>>, // remoteStream; None is null
    participants: seq<Participant>,            // participantsArray
    retryCallCount: nat)                       // one counter for the whole page

  /** Work handed to `setTimeout`. */
  datatype Deferred =
    | CallUserLater(id: SocketId)               // 500 ms after a join, when a local stream exists
    | ApplyRoster(roster: seq<Participant>)     // 100 ms after a differing roster snapshot

  datatype Effect =
    | Send(req: Request)       // socket.emit
    | Schedule(task: Deferred) // setTimeout
    | AddTracks(to: string)    // sendStreams: every local track added to that connection
    | Close(id: string)        // peer.peer.close()

  /** An uncaught error, by where it surfaces. An error thrown inside a
      `setState` updater is rethrown by React while rendering and, with no
      error boundary, unmounts the page. A synchronous socket.io listener
      that throws, or an `async` handler whose promise rejects unawaited, is
      only reported: the page keeps handling events. */
  datatype Fault =
    | InUpdater(id: string)    // `.peer` of a missing connection inside a setPeersData updater
    | InListener               // `p.email` of an undefined roster entry
    | Rejected(id: string)     // an `async` handler read an undefined peer, or its offer was refused

  /** Only a throw React rethrows while rendering ends the page. */
  predicate Fatal(f: Fault) {
    f.InUpdater?
  }

  datatype Step = Step(session: Session, effects: seq<Effect>)

  /** `retryCallCount < 3` in handleCallAccepted. */
  const RetryBound: nat := 3

  /** What holds between two steps: the retry counter is within its bound and
      no connection is left halfway through answering an offer. */
  predicate Valid(s: Session) {
    && s.retryCallCount <= RetryBound
    && forall k :: k in s.peers ==> Settled(s.peers[k])
  }

  /** `s'` differs from `s` at most in the connection stored under `k` and in
      the retry counter. */
  predicate OnlyPeerChanged(s: Session, s': Session, k: string) {
    && s'.selfEmail == s.selfEmail
    && s'.hasLocalStream == s.hasLocalStream
    && s'.remoteStream == s.remoteStream
    && s'.participants == s.participants
    && s'.peers.Keys == s.peers.Keys
    && forall j :: j in s.peers && j != k ==> s'.peers[j] == s.peers[j]
  }

  /** `prev.filter((v) => v.email !== email)`. */
  function DropEmail(ps: seq<Participant>, email: Option<Email>): (r: seq<Participant>)
    ensures forall p :: p in r ==> p in ps && Some(p.who.email) != email
    ensures forall p :: p in ps && Some(p.who.email) != email ==> p in r
    ensures |r| <= |ps|
  {
    if ps == [] then []
    else if Some(ps[0].who.email) == email then DropEmail(ps[1..], email)
    else [ps[0]] + DropEmail(ps[1..], email)
  }

  /** `participantsData.filter((p) => p.email !== userAuth.email)`. */
  function OthersOf(self: Email, roster: seq<Identity>): (r: seq<Participant>)
    ensures forall p :: p in r ==> p.layout == RecordLayout && p.who in roster && p.who.email != self
    ensures forall w :: w in roster && w.email != self ==> Participant(w, RecordLayout) in r
    ensures |r| <= |roster|
  {
    if roster == [] then []
    else if roster[0].email == self then OthersOf(self, roster[1..])
    else [Participant(roster[0], RecordLayout)] + OthersOf(self, roster[1..])
  }

  /** `filter` keeps order and repeats: filtering a concatenation is
      concatenating the filtered parts. */
  lemma {:induction false} DropEmailAppend(xs: seq<Participant>, ys: seq<Participant>, email: Option<Email>)
    ensures DropEmail(xs + ys, email) == DropEmail(xs, email) + DropEmail(ys, email)
  {
    if xs == [] {
      assert xs + ys == ys;
    } else {
      assert (xs + ys)[0] == xs[0];
      assert (xs + ys)[1..] == xs[1..] + ys;
      DropEmailAppend(xs[1..], ys, email);
      if Some(xs[0].who.email) != email {
        assert [xs[0]] + DropEmail(xs[1..], email) + DropEmail(ys, email)
            == [xs[0]] + (DropEmail(xs[1..], email) + DropEmail(ys, email));
      }
    }
  }

  /** The same for the roster filter, which also tags each record's layout. */
  lemma {:induction false} OthersOfAppend(self: Email, xs: seq<Identity>, ys: seq<Identity>)
    ensures OthersOf(self, xs + ys) == OthersOf(self, xs) + OthersOf(self, ys)
  {
    if xs == [] {
      assert xs + ys == ys;
    } else {
      assert (xs + ys)[0] == xs[0];
      assert (xs + ys)[1..] == xs[1..] + ys;
      OthersOfAppend(self, xs[1..], ys);
      if xs[0].email != self {
        assert [Participant(xs[0], RecordLayout)] + OthersOf(self, xs[1..]) + OthersOf(self, ys)
            == [Participant(xs[0], RecordLayout)] + (OthersOf(self, xs[1..]) + OthersOf(self, ys));
      }
    }
  }

  /** On one entry the filters keep it exactly when it passes the test. */
  lemma FiltersOnOne(p: Participant, w: Identity, email: Option<Email>, self: Email)
    ensures DropEmail([p], email) == if Some(p.who.email) == email then [] else [p]
    ensures OthersOf(self, [w]) == if w.email == self then [] else [Participant(w, RecordLayout)]
  {
  }

  function RosterIds(roster: seq<Participant>): set<string> {
    set p | p in roster :: p.who.id
  }

  /** handleUserJoined. The new connection replaces any existing one under the
      same id, which is not closed. */
  function OnUserJoined(s: Session, who: Identity): (r: Step)
    ensures r.session.participants == s.participants + [Participant(who, JoinedLayout)]
    ensures who.id in r.session.peers && r.session.peers[who.id] == Fresh()
    ensures forall k :: k in s.peers && k != who.id ==> k in r.session.peers && r.session.peers[k] == s.peers[k]
    ensures r.session.peers.Keys == s.peers.Keys + {who.id}
    ensures r.session.remoteStream == s.remoteStream && r.session.retryCallCount == s.retryCallCount
    ensures r.session.selfEmail == s.selfEmail && r.session.hasLocalStream == s.hasLocalStream
    // a call is placed later, and only when there is something to send
    ensures s.hasLocalStream ==> r.effects == [Schedule(CallUserLater(who.id))]
    ensures !s.hasLocalStream ==> r.effects == []
    ensures Valid(s) ==> Valid(r.session)
  {
    var s' := s.(participants := s.participants + [Participant(who, JoinedLayout)],
                 peers := s.peers[who.id := Fresh()]);
    Step(s', if s.hasLocalStream then [Schedule(CallUserLater(who.id))] else [])
  }

  /** handleUserLeave. Reading `.peer` of a missing connection throws inside
      the `setPeersData` updater. */
  function OnUserLeave(s: Session, email: Option<Email>, id: SocketId): (r: Result<Step, Fault>)
    ensures r.Err? <==> id !in s.peers
    ensures r.Err? ==> Fatal(r.error)
    ensures r.Ok? ==>
      && r.value.session.peers == s.peers - {id}
      && r.value.session.remoteStream.Keys == s.remoteStream.Keys + {id}
      && r.value.session.remoteStream[id] == None
      && (forall k :: k in s.remoteStream && k != id ==> r.value.session.remoteStream[k] == s.remoteStream[k])
      // every participant with that email goes, every other one stays, in order
      && r.value.session.participants == DropEmail(s.participants, email)
      && r.value.session.retryCallCount == s.retryCallCount
      && r.value.session.selfEmail == s.selfEmail && r.value.session.hasLocalStream == s.hasLocalStream
      && r.value.effects == [Close(id)]
    ensures r.Ok? && Valid(s) ==> Valid(r.value.session)
  {
    if id !in s.peers then Err(InUpdater(id))
    else
      Ok(Step(s.(participants := DropEmail(s.participants, email),
                 peers := s.peers - {id},
                 remoteStream := s.remoteStream[id := None]),
              [Close(id)]))
  }

  /** handleParticipants. Nothing changes now: if the snapshot, less the local
      user, differs from the current list as JSON, the new list is applied
      100 ms later. An undefined entry makes the filter throw. */
  function OnParticipants(s: Session, roster: seq<Option<Identity>>): (r: Result<Step, Fault>)
    ensures r.Err? <==> exists i :: 0 <= i < |roster| && roster[i].None?
    ensures r.Err? ==> !Fatal(r.error)
    ensures r.Ok? ==> r.value.session == s
    ensures r.Ok? ==>
      var others := OthersOf(s.selfEmail, AllDefined(roster).value);
      && (others == s.participants ==> r.value.effects == [])
      && (others != s.participants ==> r.value.effects == [Schedule(ApplyRoster(others))])
  {
    match AllDefined(roster)
    case None => Err(InListener)
    case Some(ids) =>
      var others := OthersOf(s.selfEmail, ids);
      if others != s.participants then Ok(Step(s, [Schedule(ApplyRoster(others))]))
      else Ok(Step(s, []))
  }

  /** The deferred half of handleParticipants: a fresh connection for every
      listed participant, replacing (without closing) any existing one, and
      the list becomes the participant list. */
  function OnApplyRoster(s: Session, roster: seq<Participant>): (r: Step)
    ensures r.session.participants == roster
    ensures r.session.peers.Keys == s.peers.Keys + RosterIds(roster)
    ensures forall p :: p in roster ==> p.who.id in r.session.peers && r.session.peers[p.who.id] == Fresh()
    ensures forall k :: k in s.peers && k !in RosterIds(roster) ==> r.session.peers[k] == s.peers[k]
    ensures r.session.remoteStream == s.remoteStream && r.session.retryCallCount == s.retryCallCount
    ensures r.session.selfEmail == s.selfEmail && r.session.hasLocalStream == s.hasLocalStream
    ensures r.effects == []
    ensures Valid(s) ==> Valid(r.session)
  {
    var renewed := map k | k in RosterIds(roster) :: Fresh();
    Step(s.(peers := s.peers + renewed, participants := roster), [])
  }

  /** handleCallUser(to, peer): a new offer sent as `user:call`. A connection
      missing from the map is skipped; a refused offer rejects the handler's
      promise, which nobody awaits. */
  function OnCallUser(s: Session, to: SocketId, created: Sdp): (r: Result<Step, Fault>)
    ensures to !in s.peers ==> r == Ok(Step(s, []))
    ensures r.Err? <==> to in s.peers && s.peers[to].signaling == HaveRemoteOffer
    ensures r.Err? ==> !Fatal(r.error)
    ensures r.Ok? && to in s.peers ==>
      && OnlyPeerChanged(s, r.value.session, to)
      && r.value.session.retryCallCount == s.retryCallCount
      // the offer sent is the connection's new local description
      && r.value.session.peers[to].signaling == HaveLocalOffer
      && r.value.session.peers[to].localDescription == Some(created)
      && r.value.session.peers[to].sending == s.peers[to].sending
      && r.value.session.peers[to].remoteDescription == s.peers[to].remoteDescription
      && r.value.effects == [Send(UserCall(to, created))]
    ensures r.Ok? && Valid(s) ==> Valid(r.value.session)
  {
    if to !in s.peers then Ok(Step(s, []))
    else
      var o := GenerateOffer(s.peers[to], created);
      if o.offer.None? then Err(Rejected(to))
      else Ok(Step(s.(peers := s.peers[to := o.peer]), [Send(UserCall(to, o.offer.value))]))
  }

  /** handleIncommingCall: answer the offer and send the answer back, which
      is `undefined` when the connection was not `stable`. An unknown caller
      rejects the handler's promise. */
  function OnIncomingCall(s: Session, from: SocketId, offer: Sdp, created: Sdp): (r: Result<Step, Fault>)
    ensures r.Err? <==> from !in s.peers
    ensures r.Err? ==> !Fatal(r.error)
    ensures r.Ok? ==>
      && OnlyPeerChanged(s, r.value.session, from)
      && r.value.session.retryCallCount == s.retryCallCount
      // the offer is kept as remote description and the answer sent as local one
      && (s.peers[from].signaling == Stable ==>
            && r.value.session.peers[from].signaling == Stable
            && r.value.session.peers[from].remoteDescription == Some(offer)
            && r.value.session.peers[from].localDescription == Some(created)
            && r.value.session.peers[from].sending == s.peers[from].sending
            && r.value.effects == [Send(CallAccept(from, Some(created)))])
      && (s.peers[from].signaling != Stable ==>
            && r.value.session == s
            && r.value.effects == [Send(CallAccept(from, None))])
    ensures r.Ok? && Valid(s) ==> Valid(r.value.session)
  {
    if from !in s.peers then Err(Rejected(from))
    else
      var a := GetAnswer(s.peers[from], offer, created);
      Ok(Step(s.(peers := s.peers[from := a.peer]), [Send(CallAccept(from, a.ans))]))
  }

  /** The answer was refused by the guard and the counter still allows a retry. */
  predicate Retries(s: Session, from: string, ans: Option<Sdp>) {
    && from in s.peers
    && SetRemoteDescription(s.peers[from], ans).result == Ignored
    && s.retryCallCount < RetryBound
  }

  /** The call is treated as accepted: the answer was applied, or it was
      refused and the retries are used up. */
  predicate Completes(s: Session, from: string, ans: Option<Sdp>) {
    && from in s.peers
    && SetRemoteDescription(s.peers[from], ans).result != Threw
    && !Retries(s, from, ans)
  }

  /** handleCallAccepted, whose try/catch swallows a missing connection, a
      rejected answer and a throwing `sendStreams`. A refused answer re-places
      the call while the counter is below 3; otherwise the local tracks are
      sent and the counter resets. When the connection already carries the
      tracks, the first `addTrack` throws, and the reset after it never runs. */
  function OnCallAccepted(s: Session, from: SocketId, ans: Option<Sdp>, created: Sdp): (r: Step)
    ensures !Retries(s, from, ans) && !Completes(s, from, ans) ==> r == Step(s, [])
    ensures Retries(s, from, ans) ==>
      && OnlyPeerChanged(s, r.session, from)
      && r.session.retryCallCount == s.retryCallCount + 1
      // from `stable` a new offer is set and sent
      && (s.peers[from].signaling == Stable ==>
            && r.session.peers[from] == s.peers[from].(signaling := HaveLocalOffer, localDescription := Some(created))
            && r.effects == [Send(UserCall(from, created))])
      // from `have-remote-offer` the offer is refused: its rejection is not awaited
      && (s.peers[from].signaling != Stable ==>
            && r.session.peers[from] == s.peers[from]
            && r.effects == [])
    ensures Completes(s, from, ans) ==>
      && OnlyPeerChanged(s, r.session, from)
      // an applied answer becomes the remote description; a refused one changes no description
      && (s.peers[from].signaling == HaveLocalOffer ==>
            && r.session.peers[from].signaling == Stable
            && r.session.peers[from].remoteDescription == ans
            && r.session.peers[from].localDescription == s.peers[from].localDescription)
      && (s.peers[from].signaling != HaveLocalOffer ==>
            r.session.peers[from].(sending := s.peers[from].sending) == s.peers[from])
      // sendStreams returns at once without a local stream
      && (!s.hasLocalStream ==>
            && r.session.retryCallCount == 0 && r.effects == []
            && r.session.peers[from].sending == s.peers[from].sending)
      // the tracks go out once per connection
      && (s.hasLocalStream && !s.peers[from].sending ==>
            && r.session.retryCallCount == 0 && r.effects == [AddTracks(from)]
            && r.session.peers[from].sending)
      // a second time addTrack throws, and the counter keeps its value
      && (s.hasLocalStream && s.peers[from].sending ==>
            && r.session.retryCallCount == s.retryCallCount && r.effects == []
            && r.session.peers[from].sending)
    ensures s.retryCallCount <= RetryBound ==> r.session.retryCallCount <= RetryBound
    ensures Valid(s) ==> Valid(r.session)
  {
    if from !in s.peers then Step(s, [])
    else
      var a := SetRemoteDescription(s.peers[from], ans);
      if a.result == Threw then Step(s, [])
      else if a.result == Ignored && s.retryCallCount < RetryBound then
        var o := GenerateOffer(a.peer, created);
        Step(s.(peers := s.peers[from := o.peer], retryCallCount := s.retryCallCount + 1),
             if o.offer.Some? then [Send(UserCall(from, o.offer.value))] else [])
      else if !s.hasLocalStream then
        Step(s.(peers := s.peers[from := a.peer], retryCallCount := 0), [])
      else if a.peer.sending then
        Step(s.(peers := s.peers[from := a.peer]), [])
      else
        Step(s.(peers := s.peers[from := a.peer.(sending := true)], retryCallCount := 0), [AddTracks(from)])
  }

  /** The `negotiationneeded` listener (handleNegoNeeded): a fresh offer sent
      as `peer:nego:needed`, so the other side renegotiates. A missing
      connection or a refused offer rejects the handler's promise. */
  function OnNegotiationNeeded(s: Session, key: string, created: Sdp): (r: Result<Step, Fault>)
    ensures r.Err? <==> key !in s.peers || s.peers[key].signaling == HaveRemoteOffer
    ensures r.Err? ==> !Fatal(r.error)
    ensures r.Ok? ==>
      && OnlyPeerChanged(s, r.value.session, key)
      && r.value.session.retryCallCount == s.retryCallCount
      && r.value.session.peers[key].signaling == HaveLocalOffer
      && r.value.session.peers[key].localDescription == Some(created)
      && r.value.session.peers[key].sending == s.peers[key].sending
      && r.value.session.peers[key].remoteDescription == s.peers[key].remoteDescription
      && r.value.effects == [Send(NegoNeed(key, created))]
    ensures r.Ok? && Valid(s) ==> Valid(r.value.session)
  {
    if key !in s.peers then Err(Rejected(key))
    else
      var o := GenerateOffer(s.peers[key], created);
      if o.offer.None? then Err(Rejected(key))
      else Ok(Step(s.(peers := s.peers[key := o.peer]), [Send(NegoNeed(key, o.offer.value))]))
  }

  /** handleNegoNeedIncomming: the remote stream is cleared first, then the
      offer is answered as for an incoming call and the answer goes back as
      `peer:nego:done`; a missing connection is caught after the clearing. */
  function OnNegoNeedIncoming(s: Session, from: SocketId, offer: Sdp, created: Sdp): (r: Step)
    ensures from in r.session.remoteStream && r.session.remoteStream[from] == None
    ensures r.session.remoteStream.Keys == s.remoteStream.Keys + {from}
    ensures forall k :: k in s.remoteStream && k != from ==> r.session.remoteStream[k] == s.remoteStream[k]
    ensures from !in s.peers ==> r.session.peers == s.peers && r.effects == []
    ensures from in s.peers ==>
      && r.session.peers.Keys == s.peers.Keys
      && (forall j :: j in s.peers && j != from ==> r.session.peers[j] == s.peers[j])
      && (s.peers[from].signaling == Stable ==>
            && r.session.peers[from] == Peer(Stable, Some(created), Some(offer), s.peers[from].sending)
            && r.effects == [Send(NegoDone(from, Some(created)))])
      && (s.peers[from].signaling != Stable ==>
            && r.session.peers[from] == s.peers[from]
            && r.effects == [Send(NegoDone(from, None))])
    ensures r.session.participants == s.participants && r.session.retryCallCount == s.retryCallCount
    ensures r.session.selfEmail == s.selfEmail && r.session.hasLocalStream == s.hasLocalStream
    ensures Valid(s) ==> Valid(r.session)
  {
    var s1 := s.(remoteStream := s.remoteStream[from := None]);
    if from !in s.peers then Step(s1, [])
    else
      var a := GetAnswer(s.peers[from], offer, created);
      Step(s1.(peers := s.peers[from := a.peer]), [Send(NegoDone(from, a.ans))])
  }

  /** handleNegoNeedFinal: apply the renegotiation answer; a refused one is
      ignored, and a missing connection or a rejection is caught. */
  function OnNegoFinal(s: Session, from: SocketId, ans: Option<Sdp>): (r: Step)
    ensures r.effects == []
    ensures from in s.peers && s.peers[from].signaling == HaveLocalOffer && ans.Some? ==>
      && OnlyPeerChanged(s, r.session, from)
      && r.session.retryCallCount == s.retryCallCount
      && r.session.peers[from].signaling == Stable
      && r.session.peers[from].remoteDescription == ans
      && r.session.peers[from].localDescription == s.peers[from].localDescription
      && r.session.peers[from].sending == s.peers[from].sending
    ensures !(from in s.peers && s.peers[from].signaling == HaveLocalOffer && ans.Some?) ==> r.session == s
    ensures Valid(s) ==> Valid(r.session)
  {
    if from !in s.peers then Step(s, [])
    else Step(s.(peers := s.peers[from := SetRemoteDescription(s.peers[from], ans).peer]), [])
  }

  /** RTCIceConnectionState. */
  datatype IceState = New | Checking | Connected | Completed | Failed | Disconnected | Closed

  /** The `iceconnectionstatechange` listener: only `disconnected` tears the
      connection down; reading a connection already gone throws inside the
      `setPeersData` updater. */
  function OnIceStateChange(s: Session, key: string, ice: IceState): (r: Result<Step, Fault>)
    ensures ice != Disconnected ==> r == Ok(Step(s, []))
    ensures ice == Disconnected ==> (r.Err? <==> key !in s.peers)
    ensures r.Err? ==> Fatal(r.error)
    ensures ice == Disconnected && r.Ok? ==>
      && r.value.session.peers == s.peers - {key}
      && r.value.session == s.(peers := r.value.session.peers)
      && r.value.effects == [Close(key)]
    ensures r.Ok? && Valid(s) ==> Valid(r.value.session)
  {
    if ice != Disconnected then Ok(Step(s, []))
    else if key !in s.peers then Err(InUpdater(key))
    else Ok(Step(s.(peers := s.peers - {key}), [Close(key)]))
  }

  /** The `track` listener: the first stream of the event becomes the remote
      stream of that connection (undefined, like null here, if there is none). */
  function OnTrack(s: Session, key: string, streams: seq<Stream>): (r: Step)
    ensures r.session.remoteStream.Keys == s.remoteStream.Keys + {key}
    ensures forall k :: k in s.remoteStream && k != key ==> r.session.remoteStream[k] == s.remoteStream[k]
    ensures |streams| > 0 ==> r.session.remoteStream[key] == Some(streams[0])
    ensures |streams| == 0 ==> r.session.remoteStream[key] == None
    ensures r.session == s.(remoteStream := r.session.remoteStream) && r.effects == []
    ensures Valid(s) ==> Valid(r.session)
  {
    Step(s.(remoteStream := s.remoteStream[key := if |streams| > 0 then Some(streams[0]) else None]), [])
  }

  /** handleRemoteCameraToogle: only an `off` clears the remote stream; `on`
      and anything else change nothing. */
  function OnRemoteCameraToggle(s: Session, id: string, state: string): (r: Step)
    ensures state == "off" ==>
      && r.session.remoteStream.Keys == s.remoteStream.Keys + {id}
      && r.session.remoteStream[id] == None
      && (forall k :: k in s.remoteStream && k != id ==> r.session.remoteStream[k] == s.remoteStream[k])
      && r.session == s.(remoteStream := r.session.remoteStream)
    ensures state != "off" ==> r.session == s
    ensures r.effects == []
  {
    if state == "off" then Step(s.(remoteStream := s.remoteStream[id := None]), [])
    else Step(s, [])
  }

  /** Everything that can drive the page, one at a time. `created` is the
      description the browser returns if the handler asks for one. */
  datatype Input =
    | Receive(event: Event, created: Sdp)
    | Timer(task: Deferred, created: Sdp)
    | NegotiationNeeded(key: string, created: Sdp)
    | IceChange(key: string, ice: IceState)
    | Track(key: string, streams: seq<Stream>)

  /** An input whose handler can throw inside a `setState` updater. */
  predicate MayEndPage(input: Input) {
    (input.Receive? && input.event.UserLeave?) || input.IceChange?
  }

  /** Route an input to its handler, following the `socket.on` table and the
      connection listeners. */
  function Handle(s: Session, input: Input): (r: Result<Step, Fault>)
    // only `user:leave` and an ICE teardown can end the page
    ensures r.Err? && Fatal(r.error) ==> MayEndPage(input)
    // the handlers with their own try/catch, and those that cannot throw, never fail
    ensures input.Receive? && !input.event.UserLeave? && !input.event.UserUpdate? && !input.event.IncomingCall? ==> r.Ok?
    ensures input.Timer? && input.task.ApplyRoster? ==> r.Ok?
    ensures input.Track? ==> r.Ok?
  {
    match input
    case Receive(event, created) =>
      (match event
       case UserJoined(who) => Ok(OnUserJoined(s, who))
       case UserUpdate(_, _, roster) => OnParticipants(s, roster)
       case UserLeave(email, id) => OnUserLeave(s, email, id)
       case IncomingCall(from, offer) => OnIncomingCall(s, from, offer, created)
       case CallAccepted(from, ans) => Ok(OnCallAccepted(s, from, ans, created))
       case NegoNeeded(from, offer) => Ok(OnNegoNeedIncoming(s, from, offer, created))
       case NegoFinal(from, ans) => Ok(OnNegoFinal(s, from, ans))
       case CameraToggled(id, state) => Ok(OnRemoteCameraToggle(s, id, state)))
    case Timer(task, created) =>
      (match task
       case CallUserLater(id) => OnCallUser(s, id, created)
       case ApplyRoster(roster) => Ok(OnApplyRoster(s, roster)))
    case NegotiationNeeded(key, created) => OnNegotiationNeeded(s, key, created)
    case IceChange(key, ice) => OnIceStateChange(s, key, ice)
    case Track(key, streams) => Ok(OnTrack(s, key, streams))
  }

  /** Handle inputs in order. An error React rethrows while rendering stops
      the page; a rejected promise or a throwing listener is only reported,
      leaves the session as it was, and the next input is handled. */
  function Run(s: Session, inputs: seq<Input>): (r: Result<Session, Fault>)
    ensures inputs == [] ==> r == Ok(s)
    ensures r.Err? ==> Fatal(r.error)
    ensures r.Err? ==> exists i :: 0 <= i < |inputs| && MayEndPage(inputs[i])
    decreases |inputs|
  {
    if inputs == [] then Ok(s)
    else match Handle(s, inputs[0])
      case Err(e) => if Fatal(e) then Err(e) else Run(s, inputs[1..])
      case Ok(step) => Run(step.session, inputs[1..])
  }

  /** A handled input carries its session into the rest of the run. */
  lemma RunContinues(s: Session, x: Input, ys: seq<Input>)
    requires Handle(s, x).Ok?
    ensures Run(s, [x] + ys) == Run(Handle(s, x).value.session, ys)
  {
    assert ([x] + ys)[1..] == ys;
  }

  /** An error the page survives is skipped: the run goes on from the
      session as it was before that input. */
  lemma RunSkipsSurvivable(s: Session, x: Input, ys: seq<Input>)
    requires Handle(s, x).Err? && !Fatal(Handle(s, x).error)
    ensures Run(s, [x] + ys) == Run(s, ys)
  {
    assert ([x] + ys)[1..] == ys;
  }

  /** An error React rethrows ends the run with that error, whatever follows. */
  lemma RunStopsAtFatal(s: Session, x: Input, ys: seq<Input>)
    requires Handle(s, x).Err? && Fatal(Handle(s, x).error)
    ensures Run(s, [x] + ys) == Err(Handle(s, x).error)
  {
  }

  /** Running two batches of inputs is running the first and then, if the
      page survived it, the second from where the first ended. */
  lemma {:induction false} RunAppend(s: Session, xs: seq<Input>, ys: seq<Input>)
    ensures Run(s, xs + ys) == match Run(s, xs) case Ok(t) => Run(t, ys) case Err(e) => Err(e)
    decreases |xs|
  {
    if xs == [] {
      assert xs + ys == ys;
    } else {
      assert (xs + ys)[0] == xs[0];
      assert (xs + ys)[1..] == xs[1..] + ys;
      match Handle(s, xs[0])
      case Err(e) =>
        if !Fatal(e) {
          RunAppend(s, xs[1..], ys);
        }
      case Ok(step) =>
        RunAppend(step.session, xs[1..], ys);
    }
  }

  /** An incoming call from an unknown peer rejects its handler's promise,
      sends nothing and changes nothing; a camera hint that follows is still
      handled. */
  lemma RejectedCallDoesNotStopPage(s: Session, from: SocketId, offer: Sdp, id: string, created: Sdp)
    requires from !in s.peers
    ensures Run(s, [Receive(IncomingCall(from, offer), created), Receive(CameraToggled(id, "off"), created)])
         == Ok(s.(remoteStream := s.remoteStream[id := None]))
  {
  }

  /** Every handler keeps the session valid. */
  lemma HandlePreservesValid(s: Session, input: Input)
    requires Valid(s)
    requires Handle(s, input).Ok?
    ensures Valid(Handle(s, input).value.session)
  {
  }

  /** Whatever arrives, in whatever order, as long as the page is still
      mounted: the retry counter never exceeds 3 and no connection is left in
      `have-remote-offer`. */
  lemma {:induction false} RunPreservesValid(s: Session, inputs: seq<Input>)
    requires Valid(s)
    requires Run(s, inputs).Ok?
    ensures Valid(Run(s, inputs).value)
    decreases |inputs|
  {
    if inputs != [] {
      match Handle(s, inputs[0])
      case Err(_) =>
        RunPreservesValid(s, inputs[1..]);
      case Ok(step) =>
        HandlePreservesValid(s, inputs[0]);
        RunPreservesValid(step.session, inputs[1..]);
    }
  }
}
