/**
 * The client side of the relay signaling protocol: one session per room, in a
 * fixed role, joining the room when the socket opens and then exchanging
 * offer, answer and ICE candidates over that socket in the order of JSEP
 * (section 3.2 of RFC 8829): a viewer applies the streamer's offer and replies
 * with one answer; a streamer applies the answer.
 *
 * The browser's WebSocket and RTCPeerConnection are not modelled as objects:
 * whether `ws` and `pc` are set, whether the socket's readyState is OPEN, and
 * the state of the promise `connect()` returned are booleans and a tag, and
 * every call the client makes into them (send, setRemoteDescription,
 * setLocalDescription, addIceCandidate, close) is appended, in order, to one
 * trace of effects. Each event handler runs as one atomic step.
 */
module Signaling {
  import opened Wrappers

  datatype Role = Streamer | Viewer

  /** The `type` field of a message; `Other` is any tag outside the declared five. */
  datatype MessageType = Join | Offer | Answer | Candidate | Leave | Other(tag: string)

  /** An RTCIceCandidateInit. */
  datatype IceCandidate = IceCandidate(candidate: string, sdpMid: Option<string>, sdpMLineIndex: Option<nat>)

  /** A signaling message as it travels over the socket; every field but `type` is optional. */
  datatype SignalingMessage = SignalingMessage(
    kind: MessageType,
    room: Option<string>,
    id: Option<string>,
    sdp: Option<string>,
    candidate: Option<IceCandidate>)

  function JoinMessage(room: string, id: string): SignalingMessage {
    SignalingMessage(Join, Some(room), Some(id), None, None)
  }

  /** `{type: "answer", sdp}`; an absent sdp is dropped by JSON.stringify. */
  function AnswerMessage(sdp: Option<string>): SignalingMessage {
    SignalingMessage(Answer, None, None, sdp, None)
  }

  function CandidateMessage(c: IceCandidate): SignalingMessage {
    SignalingMessage(Candidate, None, None, None, Some(c))
  }

  datatype SdpType = OfferSdp | AnswerSdp

  datatype SessionDescription = SessionDescription(kind: SdpType, sdp: Option<string>)

  /** One call from the client into the socket or the peer connection. */
  datatype Effect =
    | Send(message: SignalingMessage)
    | SetRemoteDescription(remote: SessionDescription)
    | SetLocalDescription(local: SessionDescription)
    | AddIceCandidate(candidate: IceCandidate)
    | CloseSocket
    | ClosePeer

  /** The promise returned by the latest `connect()`. */
  datatype ConnectPromise = NotCalled | Pending | Resolved | Rejected

  /**
   * What a session is created with. `answerFor` stands for the peer
   * connection's `createAnswer()`: the sdp of the answer it produces for the
   * offer sdp that was applied last.
   */
  datatype Config = Config(roomId: string, role: Role, answerFor: Option<string> -> Option<string>)

  /** `hasSocket`: `ws !== null`; `socketOpen`: `ws.readyState === OPEN`; `hasPeer`: `pc !== null`. */
  datatype Session = Session(
    hasSocket: bool,
    socketOpen: bool,
    hasPeer: bool,
    connect: ConnectPromise,
    trace: seq<Effect>)

  const Initial := Session(false, false, false, NotCalled, [])

  /** `ws` and `pc` are created together and dropped together; only a present socket can be open. */
  predicate ValidSession(s: Session) {
    (s.socketOpen ==> s.hasSocket) && s.hasSocket == s.hasPeer
  }

  /** What can happen to a session: calls by its owner, and events raised by the socket or the peer connection. */
  datatype Event =
    | Connect
    | SocketOpen(participantId: string)
    | SocketError
    | SocketClose
    | Message(message: SignalingMessage)
    | LocalCandidate(local: Option<IceCandidate>)
    | Disconnect

  // Projections of a trace.

  function Picked<T>(e: Effect, pick: Effect -> Option<T>): seq<T> {
    match pick(e)
    case Some(x) => [x]
    case None => []
  }

  function Collect<T>(t: seq<Effect>, pick: Effect -> Option<T>): seq<T> {
    if t == [] then [] else Picked(t[0], pick) + Collect(t[1..], pick)
  }

  lemma {:induction false} CollectAppend<T>(a: seq<Effect>, b: seq<Effect>, pick: Effect -> Option<T>)
    ensures Collect(a + b, pick) == Collect(a, pick) + Collect(b, pick)
  {
    if a == [] {
      assert a + b == b;
    } else {
      assert (a + b)[0] == a[0];
      assert (a + b)[1..] == a[1..] + b;
      CollectAppend(a[1..], b, pick);
      calc {
        Collect(a + b, pick);
        Picked(a[0], pick) + Collect(a[1..] + b, pick);
        Picked(a[0], pick) + (Collect(a[1..], pick) + Collect(b, pick));
        Collect(a, pick) + Collect(b, pick);
      }
    }
  }

  lemma CollectOne<T>(e: Effect, pick: Effect -> Option<T>)
    ensures Collect([e], pick) == Picked(e, pick)
  {
    assert [e][1..] == [];
  }

  function PickSent(e: Effect): Option<SignalingMessage> {
    if e.Send? then Some(e.message) else None
  }

  function PickCandidate(e: Effect): Option<IceCandidate> {
    if e.AddIceCandidate? then Some(e.candidate) else None
  }

  function PickRemote(e: Effect): Option<SessionDescription> {
    if e.SetRemoteDescription? then Some(e.remote) else None
  }

  function PickLocal(e: Effect): Option<SessionDescription> {
    if e.SetLocalDescription? then Some(e.local) else None
  }

  /** The messages sent on the socket, in order. */
  function Sent(t: seq<Effect>): seq<SignalingMessage> {
    Collect(t, PickSent)
  }

  /** The remote candidates passed to `addIceCandidate`, in order. */
  function Candidates(t: seq<Effect>): seq<IceCandidate> {
    Collect(t, PickCandidate)
  }

  /** The descriptions passed to `setRemoteDescription`, in order. */
  function RemoteDescriptions(t: seq<Effect>): seq<SessionDescription> {
    Collect(t, PickRemote)
  }

  /** The descriptions passed to `setLocalDescription`, in order. */
  function LocalDescriptions(t: seq<Effect>): seq<SessionDescription> {
    Collect(t, PickLocal)
  }

  // One step of the session.

  /** The three cases in which `handleMessage` acts: a viewer's offer, a streamer's answer, a candidate message carrying a candidate. */
  predicate Acts(cfg: Config, hasPeer: bool, m: SignalingMessage) {
    hasPeer &&
    ((cfg.role == Viewer && m.kind == Offer) || (cfg.role == Streamer && m.kind == Answer) ||
     (m.kind == Candidate && m.candidate.Some?))
  }

  /** What `handleMessage` does with one inbound message. */
  function MessageEffects(cfg: Config, hasPeer: bool, m: SignalingMessage): (r: seq<Effect>)
    ensures r != [] <==> Acts(cfg, hasPeer, m)
    ensures CloseSocket !in r && ClosePeer !in r
  {
    if !hasPeer then []
    else
      match m.kind
      case Offer =>
        if cfg.role == Viewer then
          var answer := SessionDescription(AnswerSdp, cfg.answerFor(m.sdp));
          [SetRemoteDescription(SessionDescription(OfferSdp, m.sdp)), SetLocalDescription(answer),
           Send(AnswerMessage(answer.sdp))]
        else []
      case Answer =>
        if cfg.role == Streamer then [SetRemoteDescription(SessionDescription(AnswerSdp, m.sdp))] else []
      case Candidate =>
        if m.candidate.Some? then [AddIceCandidate(m.candidate.value)] else []
      case _ => []
  }

  /**
   * What one inbound message does, per role: a viewer given an `offer` applies
   * it as the remote description and sends exactly one `answer` carrying the
   * created answer's sdp; a streamer given an `answer` applies it and sends
   * nothing; a `candidate` message is applied, by either role, exactly when it
   * carries a candidate; everything else (`join`, `leave`, an `offer` to a
   * streamer, an `answer` to a viewer, unknown types, or any message once `pc`
   * is null) sends nothing and applies nothing.
   */
  lemma MessageEffectsByRole(cfg: Config, hasPeer: bool, m: SignalingMessage)
    ensures var r := MessageEffects(cfg, hasPeer, m);
      && Sent(r) == (if hasPeer && cfg.role == Viewer && m.kind == Offer
                     then [AnswerMessage(cfg.answerFor(m.sdp))] else [])
      && Candidates(r) == (if hasPeer && m.kind == Candidate && m.candidate.Some?
                           then [m.candidate.value] else [])
      && RemoteDescriptions(r) ==
           (if hasPeer && cfg.role == Viewer && m.kind == Offer then [SessionDescription(OfferSdp, m.sdp)]
            else if hasPeer && cfg.role == Streamer && m.kind == Answer then [SessionDescription(AnswerSdp, m.sdp)]
            else [])
      && LocalDescriptions(r) == (if hasPeer && cfg.role == Viewer && m.kind == Offer
                                  then [SessionDescription(AnswerSdp, cfg.answerFor(m.sdp))] else [])
  {
    var r := MessageEffects(cfg, hasPeer, m);
    if |r| == 1 {
      assert r == [r[0]];
      CollectOne(r[0], PickSent);
      CollectOne(r[0], PickCandidate);
      CollectOne(r[0], PickRemote);
      CollectOne(r[0], PickLocal);
    } else if |r| == 3 {
      assert r == [r[0]] + [r[1]] + [r[2]];
      CollectAppend([r[0]] + [r[1]], [r[2]], PickSent);
      CollectAppend([r[0]], [r[1]], PickSent);
      CollectOne(r[0], PickSent); CollectOne(r[1], PickSent); CollectOne(r[2], PickSent);
      CollectAppend([r[0]] + [r[1]], [r[2]], PickCandidate);
      CollectAppend([r[0]], [r[1]], PickCandidate);
      CollectOne(r[0], PickCandidate); CollectOne(r[1], PickCandidate); CollectOne(r[2], PickCandidate);
      CollectAppend([r[0]] + [r[1]], [r[2]], PickRemote);
      CollectAppend([r[0]], [r[1]], PickRemote);
      CollectOne(r[0], PickRemote); CollectOne(r[1], PickRemote); CollectOne(r[2], PickRemote);
      CollectAppend([r[0]] + [r[1]], [r[2]], PickLocal);
      CollectAppend([r[0]], [r[1]], PickLocal);
      CollectOne(r[0], PickLocal); CollectOne(r[1], PickLocal); CollectOne(r[2], PickLocal);
    }
  }

  /**
   * Within one message, the remote description is applied before the local
   * one is set, and both before the answer is sent.
   */
  lemma MessageEffectsOrdered(cfg: Config, hasPeer: bool, m: SignalingMessage)
    ensures var r := MessageEffects(cfg, hasPeer, m);
      && (forall i, j :: 0 <= i < |r| && 0 <= j < |r| && r[i].SetRemoteDescription? && r[j].SetLocalDescription? ==> i < j)
      && (forall i, j :: 0 <= i < |r| && 0 <= j < |r| && r[i].SetRemoteDescription? && r[j].Send? ==> i < j)
      && (forall i, j :: 0 <= i < |r| && 0 <= j < |r| && r[i].SetLocalDescription? && r[j].Send? ==> i < j)
  {
  }

  /** `disconnect()`: close the socket, then the peer connection, each only if present. */
  function DisconnectEffects(hasSocket: bool, hasPeer: bool): (r: seq<Effect>)
    ensures CloseSocket in r <==> hasSocket
    ensures ClosePeer in r <==> hasPeer
    ensures forall i, j :: 0 <= i < j < |r| ==> r[i] == CloseSocket && r[j] == ClosePeer
  {
    (if hasSocket then [CloseSocket] else []) + (if hasPeer then [ClosePeer] else [])
  }

  /** The calls one event makes into the socket and the peer connection, in order. */
  function StepEffects(cfg: Config, s: Session, e: Event): (r: seq<Effect>)
    ensures e.Connect? || e.SocketError? || e.SocketClose? ==> r == []
    ensures !e.Disconnect? ==> CloseSocket !in r && ClosePeer !in r
    ensures !e.Message? ==> forall x :: x in r ==> x.Send? || x.CloseSocket? || x.ClosePeer?
  {
    match e
    case SocketOpen(id) =>
      // with `ws` already null, `this.ws!.send` throws before anything is sent
      if s.hasSocket then [Send(JoinMessage(cfg.roomId, id))] else []
    case Message(m) =>
      MessageEffects(cfg, s.hasPeer, m)
    case LocalCandidate(c) =>
      if c.Some? && s.hasSocket && s.socketOpen then [Send(CandidateMessage(c.value))] else []
    case Disconnect =>
      DisconnectEffects(s.hasSocket, s.hasPeer)
    case _ => []
  }

  /** The session after one event. */
  function Step(cfg: Config, s: Session, e: Event): (r: Session)
    ensures r.trace == s.trace + StepEffects(cfg, s, e)
    ensures ValidSession(s) ==> ValidSession(r)
    ensures r.hasPeer != s.hasPeer ==> e.Connect? || e.Disconnect?
    ensures r.connect != s.connect ==>
      e.Connect? || ((e.SocketOpen? || e.SocketError?) && s.connect == Pending)
  {
    var trace := s.trace + StepEffects(cfg, s, e);
    match e
    case Connect =>
      Session(true, false, true, Pending, trace)
    case SocketOpen(_) =>
      if s.hasSocket
      then Session(true, true, s.hasPeer, if s.connect == Pending then Resolved else s.connect, trace)
      else s
    case SocketError =>
      s.(connect := if s.connect == Pending then Rejected else s.connect)
    case SocketClose =>
      s.(socketOpen := false)
    case Message(_) =>
      s.(trace := trace)
    case LocalCandidate(_) =>
      s.(trace := trace)
    case Disconnect =>
      Session(false, false, false, s.connect, trace)
  }

  /** The session after a sequence of events, handled one at a time in arrival order. */
  function Run(cfg: Config, s: Session, evs: seq<Event>): (r: Session)
    ensures ValidSession(s) ==> ValidSession(r)
    decreases |evs|
  {
    if evs == [] then s else Run(cfg, Step(cfg, s, evs[0]), evs[1..])
  }

  /** The trace only grows: what has been called stays called. */
  lemma {:induction false} RunExtendsTrace(cfg: Config, s: Session, evs: seq<Event>)
    ensures s.trace <= Run(cfg, s, evs).trace
    decreases |evs|
  {
    if evs != [] {
      var s1 := Step(cfg, s, evs[0]);
      RunExtendsTrace(cfg, s1, evs[1..]);
      assert s.trace <= s1.trace;
    }
  }

  // Properties of single steps.

  lemma StepKeepsValid(cfg: Config, s: Session, e: Event)
    requires ValidSession(s)
    ensures ValidSession(Step(cfg, s, e))
    ensures s.trace <= Step(cfg, s, e).trace
  {
  }

  /** Opening the socket sends exactly one message, a `join` for the session's room with the given id, and settles `connect` after it. */
  lemma OpenSendsOneJoin(cfg: Config, s: Session, id: string)
    requires s.hasSocket && s.connect == Pending
    ensures var t := Step(cfg, s, SocketOpen(id));
      t.trace == s.trace + [Send(JoinMessage(cfg.roomId, id))] &&
      Sent(t.trace) == Sent(s.trace) + [JoinMessage(cfg.roomId, id)] &&
      t.connect == Resolved && t.socketOpen
  {
    CollectAppend(s.trace, [Send(JoinMessage(cfg.roomId, id))], PickSent);
    CollectOne(Send(JoinMessage(cfg.roomId, id)), PickSent);
  }

  /** A local candidate is sent as a `candidate` message exactly when it is non-null and the socket is open. */
  lemma LocalCandidateSentOnlyWhenOpen(cfg: Config, s: Session, c: Option<IceCandidate>)
    ensures var t := Step(cfg, s, LocalCandidate(c));
      Sent(t.trace) == Sent(s.trace) + (if c.Some? && s.hasSocket && s.socketOpen then [CandidateMessage(c.value)] else []) &&
      t.(trace := s.trace) == s
  {
    if c.Some? && s.hasSocket && s.socketOpen {
      CollectAppend(s.trace, [Send(CandidateMessage(c.value))], PickSent);
      CollectOne(Send(CandidateMessage(c.value)), PickSent);
    } else {
      assert s.trace + [] == s.trace;
    }
  }

  /** A second `disconnect()` closes nothing and changes nothing. */
  lemma DisconnectIdempotent(cfg: Config, s: Session)
    ensures var once := Step(cfg, s, Disconnect);
      !once.hasSocket && !once.hasPeer && !once.socketOpen &&
      Step(cfg, once, Disconnect) == once
  {
  }

  // Properties of runs.

  predicate OnlyMessages(evs: seq<Event>) {
    forall i :: 0 <= i < |evs| ==> evs[i].Message?
  }

  /** The answer a viewer owes for one event: one for an `offer`, none otherwise. */
  function AnswerOwed(cfg: Config, e: Event): seq<SignalingMessage> {
    if cfg.role == Viewer && e.Message? && e.message.kind == Offer
    then [AnswerMessage(cfg.answerFor(e.message.sdp))] else []
  }

  /** The answers a viewer owes for the offers among `evs`, one per offer, in order. */
  function AnswersOwed(cfg: Config, evs: seq<Event>): seq<SignalingMessage> {
    if evs == [] then [] else AnswerOwed(cfg, evs[0]) + AnswersOwed(cfg, evs[1..])
  }

  /** The candidate one event carries, if it is a `candidate` message with a candidate field. */
  function CandidateCarried(e: Event): seq<IceCandidate> {
    if e.Message? && e.message.kind == Candidate && e.message.candidate.Some?
    then [e.message.candidate.value] else []
  }

  /** The candidates carried by the `candidate` messages among `evs`, in order. */
  function CandidatesCarried(evs: seq<Event>): seq<IceCandidate> {
    if evs == [] then [] else CandidateCarried(evs[0]) + CandidatesCarried(evs[1..])
  }

  function CountOffers(evs: seq<Event>): nat {
    if evs == [] then 0
    else (if evs[0].Message? && evs[0].message.kind == Offer then 1 else 0) + CountOffers(evs[1..])
  }

  lemma OnlyMessagesTail(evs: seq<Event>)
    requires evs != [] && OnlyMessages(evs)
    ensures OnlyMessages(evs[1..])
  {
    forall i | 0 <= i < |evs[1..]| ensures evs[1..][i].Message? {
      assert evs[1..][i] == evs[i + 1];
    }
  }

  /** A viewer owes exactly one answer per offer; a streamer owes none. */
  lemma {:induction false} AnswersOwedCount(cfg: Config, evs: seq<Event>)
    ensures |AnswersOwed(cfg, evs)| == if cfg.role == Viewer then CountOffers(evs) else 0
  {
    if evs != [] {
      AnswersOwedCount(cfg, evs[1..]);
    }
  }

  /**
   * While the peer connection is present, inbound messages make the client
   * send exactly the answers it owes (one per offer if it is a viewer, none
   * if it is a streamer) and apply exactly the candidates the messages carry,
   * both in arrival order; the socket and peer flags do not change.
   */
  lemma MessageStep(cfg: Config, s: Session, m: SignalingMessage)
    requires s.hasPeer
    ensures var t := Step(cfg, s, Message(m));
      && Sent(t.trace) == Sent(s.trace) + AnswerOwed(cfg, Message(m))
      && Candidates(t.trace) == Candidates(s.trace) + CandidateCarried(Message(m))
      && t.(trace := s.trace) == s
  {
    var added := MessageEffects(cfg, true, m);
    MessageEffectsByRole(cfg, true, m);
    CollectAppend(s.trace, added, PickSent);
    CollectAppend(s.trace, added, PickCandidate);
  }

  lemma AppendAssoc<T>(a: seq<T>, b: seq<T>, c: seq<T>)
    ensures (a + b) + c == a + (b + c)
  {
  }

  /** The first of a run of inbound messages is one `MessageStep`; the rest of the run follows on from there. */
  lemma FirstMessage(cfg: Config, s: Session, evs: seq<Event>)
    requires s.hasPeer && evs != [] && OnlyMessages(evs)
    ensures var s1 := Step(cfg, s, evs[0]);
      && Run(cfg, s, evs) == Run(cfg, s1, evs[1..])
      && OnlyMessages(evs[1..])
      && s1.hasPeer && s1.hasSocket == s.hasSocket && s1.socketOpen == s.socketOpen
      && Sent(s1.trace) == Sent(s.trace) + AnswerOwed(cfg, evs[0])
      && Candidates(s1.trace) == Candidates(s.trace) + CandidateCarried(evs[0])
      && AnswersOwed(cfg, evs) == AnswerOwed(cfg, evs[0]) + AnswersOwed(cfg, evs[1..])
      && CandidatesCarried(evs) == CandidateCarried(evs[0]) + CandidatesCarried(evs[1..])
  {
    assert evs[0] == Message(evs[0].message);
    MessageStep(cfg, s, evs[0].message);
    OnlyMessagesTail(evs);
  }

  /** Inbound messages keep the socket and peer flags as they were. */
  lemma {:induction false} MessagesKeepFlags(cfg: Config, s: Session, evs: seq<Event>)
    requires s.hasPeer && OnlyMessages(evs)
    ensures var t := Run(cfg, s, evs);
      t.hasPeer && t.hasSocket == s.hasSocket && t.socketOpen == s.socketOpen
    decreases |evs|
  {
    if evs != [] {
      FirstMessage(cfg, s, evs);
      MessagesKeepFlags(cfg, Step(cfg, s, evs[0]), evs[1..]);
    }
  }

  /** Inbound messages make the client send exactly the answers it owes, in arrival order. */
  lemma {:induction false} MessagesAnswered(cfg: Config, s: Session, evs: seq<Event>)
    requires s.hasPeer && OnlyMessages(evs)
    ensures Sent(Run(cfg, s, evs).trace) == Sent(s.trace) + AnswersOwed(cfg, evs)
    decreases |evs|
  {
    if evs != [] {
      var s1 := Step(cfg, s, evs[0]);
      FirstMessage(cfg, s, evs);
      MessagesAnswered(cfg, s1, evs[1..]);
      calc {
        Sent(Run(cfg, s, evs).trace);
        Sent(Run(cfg, s1, evs[1..]).trace);
        Sent(s1.trace) + AnswersOwed(cfg, evs[1..]);
        (Sent(s.trace) + AnswerOwed(cfg, evs[0])) + AnswersOwed(cfg, evs[1..]);
        { AppendAssoc(Sent(s.trace), AnswerOwed(cfg, evs[0]), AnswersOwed(cfg, evs[1..])); }
        Sent(s.trace) + (AnswerOwed(cfg, evs[0]) + AnswersOwed(cfg, evs[1..]));
        Sent(s.trace) + AnswersOwed(cfg, evs);
      }
    }
  }

  /** Inbound messages make the client apply exactly the candidates they carry, in arrival order. */
  lemma {:induction false} MessagesCandidatesApplied(cfg: Config, s: Session, evs: seq<Event>)
    requires s.hasPeer && OnlyMessages(evs)
    ensures Candidates(Run(cfg, s, evs).trace) == Candidates(s.trace) + CandidatesCarried(evs)
    decreases |evs|
  {
    if evs != [] {
      var s1 := Step(cfg, s, evs[0]);
      FirstMessage(cfg, s, evs);
      MessagesCandidatesApplied(cfg, s1, evs[1..]);
      calc {
        Candidates(Run(cfg, s, evs).trace);
        Candidates(Run(cfg, s1, evs[1..]).trace);
        Candidates(s1.trace) + CandidatesCarried(evs[1..]);
        (Candidates(s.trace) + CandidateCarried(evs[0])) + CandidatesCarried(evs[1..]);
        { AppendAssoc(Candidates(s.trace), CandidateCarried(evs[0]), CandidatesCarried(evs[1..])); }
        Candidates(s.trace) + (CandidateCarried(evs[0]) + CandidatesCarried(evs[1..]));
        Candidates(s.trace) + CandidatesCarried(evs);
      }
    }
  }

  /** The three facts together: answers owed, candidates carried, flags kept. */
  lemma MessagesAnsweredInOrder(cfg: Config, s: Session, evs: seq<Event>)
    requires s.hasPeer && OnlyMessages(evs)
    ensures var t := Run(cfg, s, evs);
      && Sent(t.trace) == Sent(s.trace) + AnswersOwed(cfg, evs)
      && Candidates(t.trace) == Candidates(s.trace) + CandidatesCarried(evs)
      && t.hasPeer && t.hasSocket == s.hasSocket && t.socketOpen == s.socketOpen
  {
    MessagesKeepFlags(cfg, s, evs);
    MessagesAnswered(cfg, s, evs);
    MessagesCandidatesApplied(cfg, s, evs);
  }

  /** Once `pc` is null (before `connect()` or after `disconnect()`), inbound messages change nothing. */
  lemma {:induction false} DetachedSessionIgnoresMessages(cfg: Config, s: Session, evs: seq<Event>)
    requires !s.hasPeer && OnlyMessages(evs)
    ensures Run(cfg, s, evs) == s
    decreases |evs|
  {
    if evs != [] {
      assert Step(cfg, s, evs[0]) == s;
      DetachedSessionIgnoresMessages(cfg, s, evs[1..]);
    }
  }

  /** The client only ever sends `join`, `answer` and `candidate` messages, never an `offer`; a streamer never sends an `answer`. */
  predicate SendsAllowed(role: Role, msgs: seq<SignalingMessage>) {
    forall i :: 0 <= i < |msgs| ==>
      (msgs[i].kind.Join? || msgs[i].kind.Answer? || msgs[i].kind.Candidate?) &&
      (role == Streamer ==> !msgs[i].kind.Answer?)
  }

  lemma SendsAllowedAppend(role: Role, a: seq<SignalingMessage>, b: seq<SignalingMessage>)
    requires SendsAllowed(role, a) && SendsAllowed(role, b)
    ensures SendsAllowed(role, a + b)
  {
    forall i | 0 <= i < |a + b|
      ensures (a + b)[i] == if i < |a| then a[i] else b[i - |a|]
    {
    }
  }

  lemma StepSendsAllowed(cfg: Config, s: Session, e: Event)
    ensures SendsAllowed(cfg.role, Sent(StepEffects(cfg, s, e)))
  {
    var added := StepEffects(cfg, s, e);
    match e {
      case Message(m) =>
        MessageEffectsByRole(cfg, s.hasPeer, m);
      case Disconnect =>
        CollectAppend(if s.hasSocket then [CloseSocket] else [], if s.hasPeer then [ClosePeer] else [], PickSent);
        CollectOne(CloseSocket, PickSent);
        CollectOne(ClosePeer, PickSent);
        assert Sent(added) == [];
      case SocketOpen(id) =>
        if s.hasSocket {
          CollectOne(Send(JoinMessage(cfg.roomId, id)), PickSent);
          assert Sent(added) == [JoinMessage(cfg.roomId, id)];
        } else {
          assert added == [];
        }
      case LocalCandidate(c) =>
        if c.Some? && s.hasSocket && s.socketOpen {
          CollectOne(Send(CandidateMessage(c.value)), PickSent);
          assert Sent(added) == [CandidateMessage(c.value)];
        } else {
          assert added == [];
        }
      case _ =>
        assert added == [];
    }
  }

  lemma {:induction false} RunSendsAllowed(cfg: Config, s: Session, evs: seq<Event>)
    requires SendsAllowed(cfg.role, Sent(s.trace))
    ensures SendsAllowed(cfg.role, Sent(Run(cfg, s, evs).trace))
    decreases |evs|
  {
    if evs != [] {
      var added := StepEffects(cfg, s, evs[0]);
      var s1 := Step(cfg, s, evs[0]);
      assert s1.trace == s.trace + added || s1 == s;
      StepSendsAllowed(cfg, s, evs[0]);
      CollectAppend(s.trace, added, PickSent);
      SendsAllowedAppend(cfg.role, Sent(s.trace), Sent(added));
      RunSendsAllowed(cfg, s1, evs[1..]);
    }
  }

  /**
   * The viewer's side of a session: connect, the socket opens, the streamer's
   * offer arrives. The viewer has sent its `join` and then one `answer`, and
   * applied the offer as its remote description.
   */
  lemma ViewerScenario(answerFor: Option<string> -> Option<string>)
    ensures var cfg := Config("r1", Viewer, answerFor);
      var offer := SignalingMessage(Offer, None, None, Some("sdp-b"), None);
      var t := Run(cfg, Initial, [Connect, SocketOpen("v1"), Message(offer)]);
      Sent(t.trace) == [JoinMessage("r1", "v1"), AnswerMessage(answerFor(Some("sdp-b")))] &&
      RemoteDescriptions(t.trace) == [SessionDescription(OfferSdp, Some("sdp-b"))] &&
      t.connect == Resolved
  {
    var cfg := Config("r1", Viewer, answerFor);
    var offer := SignalingMessage(Offer, None, None, Some("sdp-b"), None);
    var s2 := Step(cfg, Step(cfg, Initial, Connect), SocketOpen("v1"));
    RunThree(cfg, Initial, Connect, SocketOpen("v1"), Message(offer));
    ViewerOpens(cfg, "v1");
    MessageStep(cfg, s2, offer);
    assert AnswerOwed(cfg, Message(offer)) == [AnswerMessage(answerFor(Some("sdp-b")))];
    MessageEffectsByRole(cfg, true, offer);
    CollectAppend(s2.trace, MessageEffects(cfg, true, offer), PickRemote);
  }

  /** Connecting and then opening the socket leaves one `join` sent, nothing applied, and `connect` resolved. */
  lemma ViewerOpens(cfg: Config, id: string)
    ensures var s2 := Step(cfg, Step(cfg, Initial, Connect), SocketOpen(id));
      && s2 == Session(true, true, true, Resolved, [Send(JoinMessage(cfg.roomId, id))])
      && Sent(s2.trace) == [JoinMessage(cfg.roomId, id)]
      && RemoteDescriptions(s2.trace) == []
  {
    var join := Send(JoinMessage(cfg.roomId, id));
    CollectOne(join, PickSent);
    CollectOne(join, PickRemote);
  }

  /** Three events in a row are three steps. */
  lemma RunThree(cfg: Config, s: Session, a: Event, b: Event, c: Event)
    ensures Run(cfg, s, [a, b, c]) == Step(cfg, Step(cfg, Step(cfg, s, a), b), c)
  {
    var s1 := Step(cfg, s, a);
    var s2 := Step(cfg, s1, b);
    assert [a, b, c][1..] == [b, c];
    assert [b, c][1..] == [c];
    calc {
      Run(cfg, s, [a, b, c]);
      Run(cfg, s1, [b, c]);
      Run(cfg, s2, [c]);
      Run(cfg, Step(cfg, s2, c), []);
    }
  }

  /** The session object: the browser's `ws` and `pc` replaced by the fields of a Session. */
  class WebRTCSignaling {
    const roomId: string
    const role: Role
    const answerFor: Option<string> -> Option<string>
    var hasSocket: bool
    var socketOpen: bool
    var hasPeer: bool
    var connectPromise: ConnectPromise
    var trace: seq<Effect>

    function Settings(): Config {
      Config(roomId, role, answerFor)
    }

    function State(): Session
      reads this
    {
      Session(hasSocket, socketOpen, hasPeer, connectPromise, trace)
    }

    predicate Valid()
      reads this
    {
      ValidSession(State())
    }

    constructor (roomId: string, role: Role, answerFor: Option<string> -> Option<string>)
      ensures this.roomId == roomId && this.role == role && this.answerFor == answerFor
      ensures Valid() && State() == Initial
    {
      this.roomId := roomId;
      this.role := role;
      this.answerFor := answerFor;
      hasSocket, socketOpen, hasPeer := false, false, false;
      connectPromise := NotCalled;
      trace := [];
    }

    /** `connect()`: create the socket and the peer connection; the promise stays pending until the socket opens or fails. */
    method Connect()
      requires Valid()
      modifies this
      ensures Valid() && State() == Step(Settings(), old(State()), Event.Connect)
      ensures hasSocket && hasPeer && !socketOpen && connectPromise == Pending && trace == old(trace)
    {
      hasSocket := true;
      hasPeer := true;
      socketOpen := false;
      connectPromise := Pending;
    }

    /** `ws.onopen`: send `join` with the room and a fresh participant id, then resolve `connect()`. */
    method OnOpen(participantId: string)
      requires Valid()
      modifies this
      ensures Valid() && State() == Step(Settings(), old(State()), SocketOpen(participantId))
      ensures old(hasSocket) ==> trace == old(trace) + [Send(JoinMessage(roomId, participantId))]
      ensures old(hasSocket) && old(connectPromise) == Pending ==> connectPromise == Resolved
    {
      if !hasSocket {
        return;
      }
      socketOpen := true;
      trace := trace + [Send(JoinMessage(roomId, participantId))];
      if connectPromise == Pending {
        connectPromise := Resolved;
      }
    }

    /** `ws.onerror`: reject `connect()` if it has not settled yet. */
    method OnError()
      requires Valid()
      modifies this
      ensures Valid() && State() == Step(Settings(), old(State()), SocketError)
    {
      if connectPromise == Pending {
        connectPromise := Rejected;
      }
    }

    /** The socket closing: its readyState leaves OPEN (`ws.onclose` itself only logs). */
    method OnClose()
      requires Valid()
      modifies this
      ensures Valid() && State() == Step(Settings(), old(State()), SocketClose)
    {
      socketOpen := false;
    }

    /** `pc.onicecandidate`: forward a local candidate only if it is non-null and the socket is open. */
    method OnIceCandidate(candidate: Option<IceCandidate>)
      requires Valid()
      modifies this
      ensures Valid() && State() == Step(Settings(), old(State()), LocalCandidate(candidate))
      ensures trace == old(trace) + if candidate.Some? && hasSocket && socketOpen
                                    then [Send(CandidateMessage(candidate.value))] else []
    {
      if candidate.Some? && hasSocket && socketOpen {
        trace := trace + [Send(CandidateMessage(candidate.value))];
      }
    }

    /** `handleMessage`: dispatch on the message type and on the role. */
    method HandleMessage(message: SignalingMessage)
      requires Valid()
      modifies this
      ensures Valid() && State() == Step(Settings(), old(State()), Message(message))
      ensures trace == old(trace) + MessageEffects(Settings(), hasPeer, message)
    {
      if !hasPeer {
        return;
      }
      match message.kind {
        case Offer =>
          if role == Viewer {
            trace := trace + [SetRemoteDescription(SessionDescription(OfferSdp, message.sdp))];
            var answer := SessionDescription(AnswerSdp, answerFor(message.sdp));
            trace := trace + [SetLocalDescription(answer)];
            trace := trace + [Send(AnswerMessage(answer.sdp))];
          }
        case Answer =>
          if role == Streamer {
            trace := trace + [SetRemoteDescription(SessionDescription(AnswerSdp, message.sdp))];
          }
        case Candidate =>
          if message.candidate.Some? {
            trace := trace + [AddIceCandidate(message.candidate.value)];
          }
        case _ =>
      }
    }

    /** `disconnect()`: close and drop the socket, then the peer connection. */
    method Disconnect()
      requires Valid()
      modifies this
      ensures Valid() && State() == Step(Settings(), old(State()), Event.Disconnect)
      ensures !hasSocket && !hasPeer
      ensures trace == old(trace) + DisconnectEffects(old(hasSocket), old(hasPeer))
    {
      if hasSocket {
        trace := trace + [CloseSocket];
        hasSocket := false;
        socketOpen := false;
      }
      if hasPeer {
        trace := trace + [ClosePeer];
        hasPeer := false;
      }
    }
  }
}
