/** `PeerService` (client/FE.jsx) over an abstract RTCPeerConnection.

    The connection keeps only its signalling state, the last local and
    remote descriptions, and whether the local tracks have been added to
    it. `ApplyLocal` and `ApplyRemote` are the
    setLocalDescription / setRemoteDescription transitions of the
    RTCSignalingState machine in the W3C WebRTC 1.0 API, following the
    offer/answer model of section 3.2 of RFC 8829 (JSEP), restricted to what
    this client can do: no provisional answers, no rollback. `PeerService`'s
    three methods are built from them, behind their own guards. Descriptions
    the browser creates (createOffer, createAnswer) are passed in as
    parameters. */
module PeerLink {
  import opened Wrappers
  import opened Protocol

  datatype SignalingState = Stable | HaveLocalOffer | HaveRemoteOffer

  datatype SdpType = OfferType | AnswerType

  /** `sending` is true once the local tracks have senders on this connection:
      `addTrack` of a track that already has one throws InvalidAccessError. */
  datatype Peer = Peer(signaling: SignalingState, localDescription: Option<Sdp>, remoteDescription: Option<Sdp>, sending: bool)

  /** `new PeerService()`: a fresh connection, stable, no descriptions, no senders. */
  function Fresh(): Peer {
    Peer(Stable, None, None, false)
  }

  /** setLocalDescription; None is the InvalidStateError rejection. */
  function ApplyLocal(p: Peer, t: SdpType, d: Sdp): Option<Peer> {
    match (p.signaling, t)
    case (Stable, OfferType) => Some(p.(signaling := HaveLocalOffer, localDescription := Some(d)))
    case (HaveLocalOffer, OfferType) => Some(p.(localDescription := Some(d)))
    case (HaveRemoteOffer, AnswerType) => Some(p.(signaling := Stable, localDescription := Some(d)))
    case _ => None
  }

  /** setRemoteDescription; None is the InvalidStateError rejection. */
  function ApplyRemote(p: Peer, t: SdpType, d: Sdp): Option<Peer> {
    match (p.signaling, t)
    case (Stable, OfferType) => Some(p.(signaling := HaveRemoteOffer, remoteDescription := Some(d)))
    case (HaveRemoteOffer, OfferType) => Some(p.(remoteDescription := Some(d)))
    case (HaveLocalOffer, AnswerType) => Some(p.(signaling := Stable, remoteDescription := Some(d)))
    case _ => None
  }

  /** A peer between two handler steps: an offer received is always answered
      within the same step, so `have-remote-offer` is never left behind. */
  predicate Settled(p: Peer) {
    p.signaling != HaveRemoteOffer
  }

  datatype Answered = Answered(peer: Peer, ans: Option<Sdp>)

  /** `getAnswer(offer)`, where `created` is what createAnswer yields. Outside
      `stable` it warns and returns undefined; from `stable` it applies the
      offer as remote description, the answer as local one, and returns the
      answer. */
  function GetAnswer(p: Peer, offer: Sdp, created: Sdp): (r: Answered)
    ensures p.signaling != Stable ==> r.peer == p && r.ans == None
    ensures p.signaling == Stable ==>
      && r.ans == Some(created)
      && r.peer.signaling == Stable
      && r.peer.remoteDescription == Some(offer)
      && r.peer.localDescription == Some(created)
      && r.peer.sending == p.sending
    ensures Settled(p) ==> Settled(r.peer)
  {
    if p.signaling != Stable then Answered(p, None)
    else
      var offered := ApplyRemote(p, OfferType, offer).value;
      Answered(ApplyLocal(offered, AnswerType, created).value, Some(created))
  }

  /** What `setRemoteDescription(ans)` resolves to: `undefined` once the answer
      is applied, the `null` sentinel when the guard refuses, or a rejection
      when the answer itself is `undefined` (an RTCSessionDescription cannot be
      built from it). */
  datatype AnswerResult = Applied | Ignored | Threw

  datatype Accepted = Accepted(peer: Peer, result: AnswerResult)

  /** `setRemoteDescription(ans)`: only `have-local-offer` takes an answer. */
  function SetRemoteDescription(p: Peer, ans: Option<Sdp>): (r: Accepted)
    ensures r.result == Ignored <==> p.signaling != HaveLocalOffer
    ensures r.result != Applied ==> r.peer == p
    ensures r.result == Threw <==> p.signaling == HaveLocalOffer && ans == None
    ensures r.result == Applied ==>
      && r.peer.signaling == Stable
      && r.peer.remoteDescription == ans
      && r.peer.localDescription == p.localDescription
      && r.peer.sending == p.sending
    ensures Settled(p) ==> Settled(r.peer)
  {
    if p.signaling != HaveLocalOffer then Accepted(p, Ignored)
    else if ans.None? then Accepted(p, Threw)
    else Accepted(ApplyRemote(p, AnswerType, ans.value).value, Applied)
  }

  datatype Offered = Offered(peer: Peer, offer: Option<Sdp>)

  /** `generateOffer()`, where `created` is what createOffer yields. Setting
      it as local description is refused in `have-remote-offer`, and the
      method then rejects (None). */
  function GenerateOffer(p: Peer, created: Sdp): (r: Offered)
    ensures r.offer.Some? <==> p.signaling != HaveRemoteOffer
    ensures r.offer.Some? ==>
      && r.offer == Some(created)
      && r.peer.signaling == HaveLocalOffer
      && r.peer.localDescription == Some(created)
      && r.peer.remoteDescription == p.remoteDescription
      && r.peer.sending == p.sending
    ensures r.offer.None? ==> r.peer == p
    ensures Settled(p) ==> Settled(r.peer)
  {
    match ApplyLocal(p, OfferType, created)
    case Some(q) => Offered(q, Some(created))
    case None => Offered(p, None)
  }

  /** The guard of `setRemoteDescription` is exactly the standard's
      precondition for applying a remote answer: it neither refuses an answer
      the connection would take nor lets through one it would reject. */
  lemma AnswerGuardMatchesStandard(p: Peer, a: Sdp)
    ensures SetRemoteDescription(p, Some(a)).result == Applied <==> ApplyRemote(p, AnswerType, a).Some?
    ensures SetRemoteDescription(p, Some(a)).result == Applied ==>
      Some(SetRemoteDescription(p, Some(a)).peer) == ApplyRemote(p, AnswerType, a)
  {
  }

  /** The guard of `getAnswer` is stricter than the standard: a second offer
      in `have-remote-offer` would be accepted by the connection but is refused. */
  lemma OfferGuardStricterThanStandard(p: Peer, offer: Sdp, created: Sdp)
    ensures GetAnswer(p, offer, created).ans.Some? ==> ApplyRemote(p, OfferType, offer).Some?
    ensures p.signaling == HaveRemoteOffer ==>
      ApplyRemote(p, OfferType, offer).Some? && GetAnswer(p, offer, created).ans.None?
  {
  }

  /** Offer/answer round trip on one side: from `stable`, `generateOffer`
      reaches `have-local-offer`, and the answer to it is then applied and
      brings the connection back to `stable` holding both descriptions. */
  lemma OfferAnswerRoundTrip(p: Peer, offer: Sdp, ans: Sdp)
    requires p.signaling == Stable
    ensures GenerateOffer(p, offer).peer.signaling == HaveLocalOffer
    ensures SetRemoteDescription(GenerateOffer(p, offer).peer, Some(ans))
      == Accepted(Peer(Stable, Some(offer), Some(ans), p.sending), Applied)
  {
  }

  /** Both sides of one exchange: the offerer's and the answerer's connections
      end in `stable`, each holding as remote description what the other
      holds as local one. */
  lemma BothSidesAgree(a: Peer, b: Peer, offer: Sdp, ans: Sdp)
    requires a.signaling == Stable && b.signaling == Stable
    ensures var offered := GenerateOffer(a, offer);
            var answered := GetAnswer(b, offered.offer.value, ans);
            var done := SetRemoteDescription(offered.peer, answered.ans);
            && done.result == Applied
            && done.peer.signaling == Stable && answered.peer.signaling == Stable
            && done.peer.localDescription == answered.peer.remoteDescription
            && done.peer.remoteDescription == answered.peer.localDescription
  {
  }
}
