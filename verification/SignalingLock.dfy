/** The offer/answer exchange between one client and the SFU, synchronised by the
    signaling lock the server keeps for the session (dc.Lock) and the client takes
    and returns with Lock and Unlock messages over the data channel.

    Every goroutine involved is a program point; every message kind in flight is a
    count, and messages are delivered in any order, which covers the data channel,
    the WebSocket and any mix of the two. */
module SignalingLock {

  /** The signaling states of section 3.2 of RFC 8829 that are used here. */
  datatype Sig = Stable | HaveLocalOffer | HaveRemoteOffer

  /** The goroutine that drains tracksCh. `adding` tells addTrack (which raises
      makingOffer) from removeTrack (which does not). */
  datatype Worker =
    | NotStarted
    | Idle
    | Wanting(adding: bool)    // a track action is taken, the lock is not
    | Locked(adding: bool)     // lock held, no offer made yet
    | Awaiting(adding: bool)   // offer sent, waiting on sdpAnswerInCh
    | Returned(adding: bool)   // the wait is over, the deferred reset has not run
    | Unlocking                // only the unlock is left

  /** The goroutine that answers incoming offers (session.signaling). */
  datatype Answerer = Free | Checked | RemoteSet

  /** A buffered channel of capacity 1. */
  datatype Slot = Empty | Full(locked: bool)

  datatype Server = Server(
    lock: bool,               // true while dc.Lock is taken
    sig: Sig,
    makingOffer: bool,
    worker: Worker,
    answerer: Answerer,
    firstAnswered: bool,      // the initial offer was answered
    ignored: nat)             // offers dropped by the conflict branch

  datatype Client = Client(
    sig: Sig,
    started: bool,            // dcNegotiationStarted
    negotiated: bool,         // dcNegotiated
    dcOpen: bool,
    lockedCh: Slot,           // dcLockedCh
    waiting: nat,             // negotiators blocked on dcLockedCh
    sleeping: nat,            // negotiators denied, about to retry
    granted: nat,             // negotiators that own the lock and have not offered
    offered: nat)             // locked offers not answered yet

  datatype Net = Net(
    lockMsgs: nat, unlockMsgs: nat, grants: nat, denials: nat,
    clientOffers: nat, clientAnswers: nat, serverOffers: nat, serverAnswers: nat)

  /** `lost` counts granted replies and `unanswered` answers dropped on a full channel;
      `errors` counts calls pion or the lock would reject. */
  datatype State = State(srv: Server, cli: Client, net: Net, lost: nat, unanswered: nat, errors: nat)

  /** Both sides as their constructors leave them. */
  predicate Initial(s: State) {
    && !s.srv.lock && s.srv.sig.Stable? && !s.srv.makingOffer && s.srv.worker.NotStarted?
    && s.srv.answerer.Free? && !s.srv.firstAnswered && s.srv.ignored == 0
    && s.cli.sig.Stable? && !s.cli.started && !s.cli.negotiated && !s.cli.dcOpen && s.cli.lockedCh.Empty?
    && s.cli.waiting == 0 && s.cli.sleeping == 0 && s.cli.granted == 0 && s.cli.offered == 0
    && s.net.lockMsgs == 0 && s.net.unlockMsgs == 0 && s.net.grants == 0 && s.net.denials == 0
    && s.net.clientOffers == 0 && s.net.clientAnswers == 0 && s.net.serverOffers == 0 && s.net.serverAnswers == 0
    && s.lost == 0 && s.unanswered == 0 && s.errors == 0
  }

  /** The client: its negotiators and its handlers of answers and offers. */
  datatype ClientEvent =
    | NegotiationNeeded | ChannelOpens | TakeReply | Retry | LockTimeout
    | MakeOffer | HandleAnswer | HandleOffer | SendAnswer

  /** Lock traffic: the data channel callbacks of both sides. */
  datatype LockEvent =
    | HandleLock | HandleLockReplyDropped | HandleUnlock | DeliverGrant | DeliverDenial

  /** The answering goroutine of the server. */
  datatype AnswerEvent = CheckOffer | ApplyOffer | AnswerOffer | AnswerDropped

  /** The track goroutine of the server. An offer is dropped when its channel is full, after
      the local description is set. */
  datatype TrackEvent =
    | StartTracks | TakeTrack(adding: bool) | AcquireTimeout | Acquire | GiveUpTrack
    | SendOffer | ApplyAnswer | ResetMaking | ReleaseLock | AnswerTimeout | OfferDropped

  datatype Event = Peer(c: ClientEvent) | Locking(l: LockEvent) | Answering(a: AnswerEvent) | Tracks(t: TrackEvent)

  predicate CanClient(s: State, e: ClientEvent) {
    match e
    case NegotiationNeeded => true
    case ChannelOpens => s.cli.negotiated
    case TakeReply => s.cli.waiting > 0 && s.cli.lockedCh.Full?
    case Retry => s.cli.sleeping > 0
    case LockTimeout => s.cli.waiting > 0
    case MakeOffer => s.cli.granted > 0
    case HandleAnswer => s.net.serverAnswers > 0
    case HandleOffer => s.net.serverOffers > 0
    case SendAnswer => s.cli.sig == HaveRemoteOffer
  }

  predicate CanLock(s: State, e: LockEvent) {
    match e
    case HandleLock => s.net.lockMsgs > 0
    case HandleLockReplyDropped => s.net.lockMsgs > 0
    case HandleUnlock => s.net.unlockMsgs > 0
    case DeliverGrant => s.net.grants > 0
    case DeliverDenial => s.net.denials > 0
  }

  predicate CanAnswer(s: State, e: AnswerEvent) {
    match e
    case CheckOffer => s.net.clientOffers > 0 && s.srv.answerer == Free
    case ApplyOffer => s.srv.answerer == Checked
    case AnswerOffer => s.srv.answerer == RemoteSet
    case AnswerDropped => s.srv.answerer == RemoteSet
  }

  predicate CanTrack(s: State, e: TrackEvent) {
    match e
    case StartTracks => s.srv.worker == NotStarted && s.srv.firstAnswered && s.cli.dcOpen
    case TakeTrack(_) => s.srv.worker == Idle
    case AcquireTimeout => s.srv.worker.Wanting?
    case Acquire => s.srv.worker.Wanting? && !s.srv.lock
    case GiveUpTrack => s.srv.worker.Locked?
    case SendOffer => s.srv.worker.Locked?
    case ApplyAnswer => s.srv.worker.Awaiting? && s.net.clientAnswers > 0
    case ResetMaking => s.srv.worker.Returned?
    case ReleaseLock => s.srv.worker == Unlocking
    case AnswerTimeout => s.srv.worker.Awaiting?
    case OfferDropped => s.srv.worker.Locked?
  }

  predicate Can(s: State, e: Event) {
    match e
    case Peer(c) => CanClient(s, c)
    case Locking(l) => CanLock(s, l)
    case Answering(a) => CanAnswer(s, a)
    case Tracks(t) => CanTrack(s, t)
  }

  /** session.hasSignalingConflict */
  predicate Conflict(srv: Server) { srv.makingOffer || srv.sig != Stable }

  /** One entry into dcLockedCh; a full channel drops it. */
  function Deliver(s: State, locked: bool): State {
    if s.cli.lockedCh == Empty then
      s.(cli := s.cli.(lockedCh := Full(locked)))
    else
      s.(lost := s.lost + if locked then 1 else 0)
  }

  /** The handler of a Lock message; `sent` is false when dcOutCh is full. */
  function TryLock(s: State, sent: bool): State
    requires s.net.lockMsgs > 0
  {
    var net := s.net.(lockMsgs := s.net.lockMsgs - 1);
    if s.srv.lock then
      s.(net := if sent then net.(denials := net.denials + 1) else net)
    else
      s.(srv := s.srv.(lock := true),
         net := if sent then net.(grants := net.grants + 1) else net,
         lost := s.lost + if sent then 0 else 1)
  }

  function Unlock(s: State): State {
    if s.srv.lock then s.(srv := s.srv.(lock := false)) else s.(errors := s.errors + 1)
  }

  /** The client's CreateOffer and SetLocalDescription, then the send. A rejected
      description is logged and nothing is sent. */
  function ClientOffer(s: State): State {
    if s.cli.sig == Stable then
      s.(cli := s.cli.(sig := HaveLocalOffer),
         net := s.net.(clientOffers := s.net.clientOffers + 1))
    else
      s.(errors := s.errors + 1)
  }

  function ClientAnswered(s: State): State
    requires s.net.serverAnswers > 0
  {
    var net := s.net.(serverAnswers := s.net.serverAnswers - 1);
    if s.cli.sig != HaveLocalOffer then
      s.(net := net, errors := s.errors + 1)
    else if s.cli.negotiated then
      s.(cli := s.cli.(sig := Stable, offered := if s.cli.offered > 0 then s.cli.offered - 1 else 0),
         net := net.(unlockMsgs := net.unlockMsgs + 1))
    else
      s.(cli := s.cli.(sig := Stable, negotiated := true), net := net)
  }

  function DoClient(s: State, e: ClientEvent): State
    requires CanClient(s, e)
  {
    var cli, net := s.cli, s.net;
    match e
    case NegotiationNeeded =>
      if !cli.started then
        var s' := ClientOffer(s); s'.(cli := s'.cli.(started := true))
      else if !cli.dcOpen then s   // "dc not connected": the negotiator returns
      else s.(cli := cli.(waiting := cli.waiting + 1), net := net.(lockMsgs := net.lockMsgs + 1))
    case ChannelOpens => s.(cli := cli.(dcOpen := true))
    case TakeReply =>
      var cli' := cli.(lockedCh := Empty, waiting := cli.waiting - 1);
      s.(cli := if cli.lockedCh.locked then cli'.(granted := cli.granted + 1)
                else cli'.(sleeping := cli.sleeping + 1))
    case Retry =>
      s.(cli := cli.(sleeping := cli.sleeping - 1, waiting := cli.waiting + 1),
         net := net.(lockMsgs := net.lockMsgs + 1))
    case LockTimeout => s.(cli := cli.(waiting := cli.waiting - 1))
    case MakeOffer =>
      var s' := ClientOffer(s);
      if s'.errors > s.errors then s'.(cli := s'.cli.(granted := cli.granted - 1))
      else s'.(cli := s'.cli.(granted := cli.granted - 1, offered := cli.offered + 1))
    case HandleAnswer => ClientAnswered(s)
    case HandleOffer =>
      var net' := net.(serverOffers := net.serverOffers - 1);
      if cli.sig == Stable then s.(cli := cli.(sig := HaveRemoteOffer), net := net')
      else s.(net := net', errors := s.errors + 1)
    case SendAnswer =>
      s.(cli := cli.(sig := Stable), net := net.(clientAnswers := net.clientAnswers + 1))
  }

  function DoLock(s: State, e: LockEvent): State
    requires CanLock(s, e)
  {
    match e
    case HandleLock => TryLock(s, true)
    case HandleLockReplyDropped => TryLock(s, false)
    case HandleUnlock => Unlock(s.(net := s.net.(unlockMsgs := s.net.unlockMsgs - 1)))
    case DeliverGrant => Deliver(s.(net := s.net.(grants := s.net.grants - 1)), true)
    case DeliverDenial => Deliver(s.(net := s.net.(denials := s.net.denials - 1)), false)
  }

  function DoAnswer(s: State, e: AnswerEvent): State
    requires CanAnswer(s, e)
  {
    var srv, net := s.srv, s.net;
    match e
    case CheckOffer =>
      var net' := net.(clientOffers := net.clientOffers - 1);
      if Conflict(srv) then s.(srv := srv.(ignored := srv.ignored + 1), net := net')
      else s.(srv := srv.(answerer := Checked), net := net')
    case ApplyOffer =>
      if srv.sig == Stable then s.(srv := srv.(answerer := RemoteSet, sig := HaveRemoteOffer))
      else s.(srv := srv.(answerer := Free), errors := s.errors + 1)
    case AnswerOffer =>
      s.(srv := srv.(answerer := Free, sig := Stable, firstAnswered := true),
         net := net.(serverAnswers := net.serverAnswers + 1))
    case AnswerDropped =>
      s.(srv := srv.(answerer := Free, sig := Stable), unanswered := s.unanswered + 1)
  }

  function DoTrack(s: State, e: TrackEvent): State
    requires CanTrack(s, e)
  {
    var srv, net := s.srv, s.net;
    match e
    case StartTracks => s.(srv := srv.(worker := Idle))
    case TakeTrack(adding) => s.(srv := srv.(worker := Wanting(adding)))
    case AcquireTimeout => s.(srv := srv.(worker := Idle))
    case Acquire =>
      s.(srv := srv.(lock := true, worker := Locked(srv.worker.adding), makingOffer := srv.worker.adding))
    case GiveUpTrack => s.(srv := srv.(worker := Returned(srv.worker.adding)))
    case SendOffer =>
      if srv.sig == Stable then
        s.(srv := srv.(worker := Awaiting(srv.worker.adding), sig := HaveLocalOffer),
           net := net.(serverOffers := net.serverOffers + 1))
      else s.(srv := srv.(worker := Returned(srv.worker.adding)), errors := s.errors + 1)
    case ApplyAnswer =>
      var net' := net.(clientAnswers := net.clientAnswers - 1);
      var srv' := srv.(worker := Returned(srv.worker.adding));
      if srv.sig == HaveLocalOffer then s.(srv := srv'.(sig := Stable), net := net')
      else s.(srv := srv', net := net', errors := s.errors + 1)
    case ResetMaking =>
      s.(srv := srv.(worker := Unlocking, makingOffer := srv.makingOffer && !srv.worker.adding))
    case ReleaseLock => Unlock(s.(srv := srv.(worker := Idle)))
    case AnswerTimeout => s.(srv := srv.(worker := Returned(srv.worker.adding)))
    case OfferDropped =>
      if srv.sig == Stable then s.(srv := srv.(worker := Returned(srv.worker.adding), sig := HaveLocalOffer))
      else s.(srv := srv.(worker := Returned(srv.worker.adding)), errors := s.errors + 1)
  }

  function Do(s: State, e: Event): State
    requires Can(s, e)
  {
    match e
    case Peer(c) => DoClient(s, c)
    case Locking(l) => DoLock(s, l)
    case Answering(a) => DoAnswer(s, a)
    case Tracks(t) => DoTrack(s, t)
  }

  predicate Step(s: State, e: Event, s': State) {
    Can(s, e) && s' == Do(s, e)
  }

  /** A run: the states passed through and the event between each two of them. */
  ghost predicate IsRun(ss: seq<State>, es: seq<Event>) {
    && |ss| == |es| + 1
    && forall i :: 0 <= i < |es| ==> Step(ss[i], es[i], ss[i + 1])
  }

  // ---------------------------------------------------------------- invariant

  function Bit(b: bool): nat { if b then 1 else 0 }

  function Grants(ch: Slot): nat { Bit(ch == Full(true)) }

  predicate WorkerHolds(w: Worker) {
    w.Locked? || w.Awaiting? || w.Returned? || w.Unlocking?
  }

  /** Where the one token of the lock can be. */
  function Tokens(s: State): nat {
    Bit(WorkerHolds(s.srv.worker)) + s.net.grants + Grants(s.cli.lockedCh)
    + s.cli.granted + s.cli.offered + s.net.unlockMsgs + s.lost
  }

  /** Client offers somewhere between SetLocalDescription and the answer's arrival. */
  function ClientExchanges(s: State): nat {
    s.net.clientOffers + Bit(s.srv.answerer != Free) + s.net.serverAnswers
  }

  function ServerExchanges(s: State): nat {
    s.net.serverOffers + Bit(s.cli.sig == HaveRemoteOffer) + s.net.clientAnswers
  }

  ghost predicate Conserved(s: State) { Bit(s.srv.lock) == Tokens(s) }

  ghost predicate Clean(s: State) { s.errors == 0 && s.srv.ignored == 0 }

  /** Before the channel opens nobody can be near the lock. */
  ghost predicate Phases(s: State) {
    && (s.cli.dcOpen ==> s.cli.negotiated)
    && (s.cli.negotiated ==> s.cli.started)
    && (s.srv.worker != NotStarted ==> s.cli.dcOpen)
    && (!s.cli.dcOpen ==> Tokens(s) == 0 && s.net.lockMsgs == 0 && s.cli.waiting == 0 && s.cli.sleeping == 0)
  }

  /** The initial offer, sent without the lock, is outstanding. */
  predicate FirstOutstanding(s: State) { s.cli.started && !s.cli.negotiated }

  ghost predicate ClientSide(s: State) {
    && (s.cli.sig == HaveLocalOffer <==> s.cli.offered > 0 || FirstOutstanding(s))
    && ClientExchanges(s) + s.unanswered == s.cli.offered + Bit(FirstOutstanding(s))
    && (s.srv.sig == HaveRemoteOffer <==> s.srv.answerer == RemoteSet)
  }

  ghost predicate ServerSide(s: State) {
    && (s.srv.sig == HaveLocalOffer <==> s.srv.worker.Awaiting?)
    && ServerExchanges(s) == Bit(s.srv.worker.Awaiting?)
    && (s.srv.makingOffer <==>
          (s.srv.worker.Locked? || s.srv.worker.Awaiting? || s.srv.worker.Returned?) && s.srv.worker.adding)
  }

  ghost predicate Inv(s: State) {
    Conserved(s) && Clean(s) && Phases(s) && ClientSide(s) && ServerSide(s)
  }

  /** The server has set a local offer and gives up on it: the wait times out, or the offer never
      leaves because its channel is full. */
  predicate Faulty(e: Event) { e == Tracks(AnswerTimeout) || e == Tracks(OfferDropped) }

  predicate Faultless(es: seq<Event>) { forall i :: 0 <= i < |es| ==> !Faulty(es[i]) }

  lemma ClientKeeps(s: State, e: ClientEvent)
    requires Inv(s) && CanClient(s, e)
    ensures Inv(DoClient(s, e))
  {
  }

  lemma LockKeeps(s: State, e: LockEvent)
    requires Inv(s) && CanLock(s, e)
    ensures Inv(DoLock(s, e))
  {
  }

  lemma AnswerKeeps(s: State, e: AnswerEvent)
    requires Inv(s) && CanAnswer(s, e)
    ensures Inv(DoAnswer(s, e))
  {
  }

  lemma TrackKeeps(s: State, e: TrackEvent)
    requires Inv(s) && CanTrack(s, e) && !Faulty(Tracks(e))
    ensures Inv(DoTrack(s, e))
  {
  }

  lemma StepKeeps(s: State, e: Event, s': State)
    requires Inv(s) && Step(s, e, s') && !Faulty(e)
    ensures Inv(s')
  {
    match e
    case Peer(c) => ClientKeeps(s, c);
    case Locking(l) => LockKeeps(s, l);
    case Answering(a) => AnswerKeeps(s, a);
    case Tracks(t) => TrackKeeps(s, t);
  }

  lemma InitialTokens(s: State)
    requires Initial(s)
    ensures Tokens(s) == 0 && Conserved(s) && Clean(s)
  {
    hide ClientSide, ServerSide;
  }

  lemma InitialClient(s: State)
    requires Initial(s)
    ensures ClientSide(s)
  {
    hide Tokens, ServerSide;
  }

  lemma InitialServer(s: State)
    requires Initial(s)
    ensures ServerSide(s)
  {
    hide Tokens, ClientSide;
  }

  lemma InitialInv(s: State)
    requires Initial(s)
    ensures Inv(s)
  {
    InitialTokens(s);
    InitialClient(s);
    InitialServer(s);
    hide Tokens, Conserved, Clean, ClientSide, ServerSide;
  }

  /** A run from the initial state on which the server waits for every offer it has described
      until the answer comes. Lock requests that time out, denied requests, and lock replies
      and answers dropped on a full channel are allowed. */
  ghost predicate TimelyRun(ss: seq<State>, es: seq<Event>) {
    IsRun(ss, es) && Initial(ss[0]) && Faultless(es)
  }

  lemma {:induction false} RunsKeepInv(ss: seq<State>, es: seq<Event>, i: nat)
    requires TimelyRun(ss, es) && i <= |es|
    ensures Inv(ss[i])
  {
    if i == 0 {
      InitialInv(ss[0]);
    } else {
      RunsKeepInv(ss, es, i - 1);
      StepKeeps(ss[i - 1], es[i - 1], ss[i]);
    }
  }

  /** Token conservation: at every point of every timely run the lock bit is the sum of
      every place its token can be, plus the grants lost on a full channel. */
  lemma TokenConservation(ss: seq<State>, es: seq<Event>, i: nat)
    requires TimelyRun(ss, es) && i <= |es|
    ensures var s := ss[i];
      Bit(s.srv.lock) == Bit(WorkerHolds(s.srv.worker)) + s.net.grants + Grants(s.cli.lockedCh)
                         + s.cli.granted + s.cli.offered + s.net.unlockMsgs + s.lost
  {
    RunsKeepInv(ss, es, i);
  }

  predicate ServerOfferOutstanding(s: State) {
    s.srv.sig == HaveLocalOffer || s.srv.worker.Awaiting? || ServerExchanges(s) > 0
  }

  predicate ClientOfferOutstanding(s: State) {
    s.cli.sig == HaveLocalOffer || ClientExchanges(s) > 0
  }

  /** Section 4 of RFC 3264, kept across the two peers: offers never cross, each side
      has at most one, no offer meets the conflict branch, and neither pion nor the
      lock ever rejects a call. */
  lemma OffersNeverCross(ss: seq<State>, es: seq<Event>, i: nat)
    requires TimelyRun(ss, es) && i <= |es|
    ensures var s := ss[i];
      && !(ServerOfferOutstanding(s) && ClientOfferOutstanding(s))
      && ServerExchanges(s) <= 1 && ClientExchanges(s) <= 1
      && s.srv.ignored == 0 && s.errors == 0
      && (s.net.clientOffers > 0 ==> !Conflict(s.srv))
  {
    RunsKeepInv(ss, es, i);
  }

  /** The calls that section 3.2 of RFC 8829 has rejected, and an unlock of a lock that is free. */
  predicate Rejected(s: State, e: Event) {
    match e
    case Peer(NegotiationNeeded) => !s.cli.started && s.cli.sig != Stable
    case Peer(MakeOffer) => s.cli.sig != Stable
    case Peer(HandleOffer) => s.cli.sig != Stable
    case Peer(HandleAnswer) => s.cli.sig != HaveLocalOffer
    case Answering(ApplyOffer) => s.srv.sig != Stable
    case Tracks(SendOffer) => s.srv.sig != Stable
    case Tracks(OfferDropped) => s.srv.sig != Stable
    case Tracks(ApplyAnswer) => s.srv.sig != HaveLocalOffer
    case Tracks(ReleaseLock) => !s.srv.lock
    case Locking(HandleUnlock) => !s.srv.lock
    case _ => false
  }

  /** What a call that is not rejected does to the signaling state of the client and of the server,
      by the same section. */
  function NextSig(s: State, e: Event): (Sig, Sig) {
    match e
    case Peer(NegotiationNeeded) => (if s.cli.started then s.cli.sig else HaveLocalOffer, s.srv.sig)
    case Peer(MakeOffer) => (HaveLocalOffer, s.srv.sig)
    case Peer(HandleOffer) => (HaveRemoteOffer, s.srv.sig)
    case Peer(HandleAnswer) => (Stable, s.srv.sig)
    case Peer(SendAnswer) => (Stable, s.srv.sig)
    case Answering(ApplyOffer) => (s.cli.sig, HaveRemoteOffer)
    case Answering(AnswerOffer) => (s.cli.sig, Stable)
    case Answering(AnswerDropped) => (s.cli.sig, Stable)
    case Tracks(SendOffer) => (s.cli.sig, HaveLocalOffer)
    case Tracks(OfferDropped) => (s.cli.sig, HaveLocalOffer)
    case Tracks(ApplyAnswer) => (s.cli.sig, Stable)
    case _ => (s.cli.sig, s.srv.sig)
  }

  /** Each step is a transition of the signaling states as the RFC has them, or is rejected and
      counted, and then changes neither state. */
  lemma StepSignals(s: State, e: Event, s': State)
    requires Step(s, e, s')
    ensures s'.errors == s.errors + Bit(Rejected(s, e))
    ensures (s'.cli.sig, s'.srv.sig) == if Rejected(s, e) then (s.cli.sig, s.srv.sig) else NextSig(s, e)
    ensures Rejected(s, e) ==> s'.cli.offered == s.cli.offered && s'.cli.negotiated == s.cli.negotiated
  {
    match e
    case Peer(c) =>
    case Locking(l) =>
    case Answering(a) =>
    case Tracks(t) =>
  }

  /** On a timely run no call is rejected, so both ends only ever take the transitions of the RFC. */
  lemma NothingIsRejected(ss: seq<State>, es: seq<Event>, i: nat)
    requires TimelyRun(ss, es) && i < |es|
    ensures !Rejected(ss[i], es[i])
    ensures (ss[i + 1].cli.sig, ss[i + 1].srv.sig) == NextSig(ss[i], es[i])
  {
    RunsKeepInv(ss, es, i);
    RunsKeepInv(ss, es, i + 1);
    assert Step(ss[i], es[i], ss[i + 1]);
    hide TimelyRun, Step, NextSig, Rejected, Conserved, Phases, ClientSide, ServerSide;
    StepSignals(ss[i], es[i], ss[i + 1]);
  }

  // ------------------------------------------------------ requests and replies

  /** A reply that never gets into dcLockedCh. */
  predicate DropsReply(s: State, e: Event) {
    e == Locking(HandleLockReplyDropped) || ((e == Locking(DeliverGrant) || e == Locking(DeliverDenial)) && s.cli.lockedCh.Full?)
  }

  ghost function RepliesDropped(ss: seq<State>, es: seq<Event>, i: nat): nat
    requires i <= |es| && |ss| == |es| + 1
  {
    if i == 0 then 0 else RepliesDropped(ss, es, i - 1) + Bit(DropsReply(ss[i - 1], es[i - 1]))
  }

  function Timeouts(es: seq<Event>, i: nat): nat
    requires i <= |es|
  {
    if i == 0 then 0 else Timeouts(es, i - 1) + Bit(es[i - 1] == Peer(LockTimeout))
  }

  /** Lock requests that are to be answered, and replies on their way. */
  function Requests(s: State): nat { s.net.lockMsgs + s.net.grants + s.net.denials + Bit(s.cli.lockedCh.Full?) }

  lemma ClientReplies(s: State, e: ClientEvent)
    requires CanClient(s, e)
    ensures DoClient(s, e).cli.waiting + Bit(e.LockTimeout?) + Requests(s) == s.cli.waiting + Requests(DoClient(s, e))
  {
  }

  lemma LockReplies(s: State, e: LockEvent)
    requires CanLock(s, e)
    ensures DoLock(s, e).cli.waiting == s.cli.waiting
    ensures Requests(s) == Requests(DoLock(s, e)) + Bit(DropsReply(s, Locking(e)))
  {
  }

  lemma ServerReplies(s: State, e: Event)
    requires Can(s, e) && (e.Answering? || e.Tracks?)
    ensures Do(s, e).cli.waiting == s.cli.waiting && Requests(Do(s, e)) == Requests(s)
  {
  }

  lemma StepReplies(s: State, e: Event, s': State)
    requires Step(s, e, s')
    ensures s'.cli.waiting + Bit(e == Peer(LockTimeout)) + Requests(s)
         == s.cli.waiting + Requests(s') + Bit(DropsReply(s, e))
  {
    hide CanClient, CanLock, CanAnswer, CanTrack, DoClient, DoLock, DoAnswer, DoTrack, Requests;
    match e
    case Peer(c) => ClientReplies(s, c);
    case Locking(l) => LockReplies(s, l);
    case _ => ServerReplies(s, e);
  }

  /** Every negotiator that waits has its request or its reply under way, one for one, but for the
      replies dropped on a full channel and the requests of negotiators that have given up. */
  lemma {:induction false} RepliesMatchRequests(ss: seq<State>, es: seq<Event>, i: nat)
    requires IsRun(ss, es) && Initial(ss[0]) && i <= |es|
    ensures ss[i].cli.waiting + Timeouts(es, i) == Requests(ss[i]) + RepliesDropped(ss, es, i)
  {
    if i > 0 {
      RepliesMatchRequests(ss, es, i - 1);
      assert Step(ss[i - 1], es[i - 1], ss[i]);
      hide IsRun, Initial, Step, Requests, DropsReply;
      StepReplies(ss[i - 1], es[i - 1], ss[i]);
    }
  }

  // ---------------------------------------------------------------- nothing is lost

  /** Where a message can be, a negotiator of the client, a reply to it, an offer at the answering
      goroutine, and a track action at the track goroutine; the last place is that goroutine's own,
      between two actions. */
  datatype Place =
    | LockMsgs | UnlockMsgs | GrantMsgs | DenialMsgs | ClientOffers | ClientAnswers | ServerOffers | ServerAnswers
    | Waiting | Sleeping | Granted | InLockedCh
    | InCheck | InAnswer
    | WantsLock | HasLock | AwaitsAnswer | ToReset | ToUnlock | BetweenActions

  function Content(s: State, p: Place): nat {
    match p
    case LockMsgs => s.net.lockMsgs
    case UnlockMsgs => s.net.unlockMsgs
    case GrantMsgs => s.net.grants
    case DenialMsgs => s.net.denials
    case ClientOffers => s.net.clientOffers
    case ClientAnswers => s.net.clientAnswers
    case ServerOffers => s.net.serverOffers
    case ServerAnswers => s.net.serverAnswers
    case Waiting => s.cli.waiting
    case Sleeping => s.cli.sleeping
    case Granted => s.cli.granted
    case InLockedCh => Bit(s.cli.lockedCh.Full?)
    case InCheck => Bit(s.srv.answerer.Checked?)
    case InAnswer => Bit(s.srv.answerer.RemoteSet?)
    case WantsLock => Bit(s.srv.worker.Wanting?)
    case HasLock => Bit(s.srv.worker.Locked?)
    case AwaitsAnswer => Bit(s.srv.worker.Awaiting?)
    case ToReset => Bit(s.srv.worker.Returned?)
    case ToUnlock => Bit(s.srv.worker.Unlocking?)
    case BetweenActions => Bit(s.srv.worker.Idle?)
  }

  /** What a step brings something to. */
  predicate Enters(s: State, e: Event, p: Place) {
    match e
    case Peer(NegotiationNeeded) =>
      if !s.cli.started then p.ClientOffers? && !Rejected(s, e) else s.cli.dcOpen && (p.Waiting? || p.LockMsgs?)
    case Peer(ChannelOpens) => false
    case Peer(TakeReply) => if s.cli.lockedCh == Full(true) then p.Granted? else p.Sleeping?
    case Peer(Retry) => p.Waiting? || p.LockMsgs?
    case Peer(LockTimeout) => false
    case Peer(MakeOffer) => p.ClientOffers? && !Rejected(s, e)
    case Peer(HandleAnswer) => p.UnlockMsgs? && s.cli.negotiated && !Rejected(s, e)
    case Peer(HandleOffer) => false
    case Peer(SendAnswer) => p.ClientAnswers?
    case Locking(HandleLock) => if s.srv.lock then p.DenialMsgs? else p.GrantMsgs?
    case Locking(HandleLockReplyDropped) => false
    case Locking(HandleUnlock) => false
    case Locking(DeliverGrant) => p.InLockedCh? && s.cli.lockedCh.Empty?
    case Locking(DeliverDenial) => p.InLockedCh? && s.cli.lockedCh.Empty?
    case Answering(CheckOffer) => p.InCheck? && !s.srv.makingOffer && s.srv.sig.Stable?
    case Answering(ApplyOffer) => p.InAnswer? && !Rejected(s, e)
    case Answering(AnswerOffer) => p.ServerAnswers?
    case Answering(AnswerDropped) => false
    case Tracks(StartTracks) => p.BetweenActions?
    case Tracks(TakeTrack(_)) => p.WantsLock?
    case Tracks(AcquireTimeout) => p.BetweenActions?
    case Tracks(Acquire) => p.HasLock?
    case Tracks(GiveUpTrack) => p.ToReset?
    case Tracks(SendOffer) => if Rejected(s, e) then p.ToReset? else p.AwaitsAnswer? || p.ServerOffers?
    case Tracks(ApplyAnswer) => p.ToReset?
    case Tracks(ResetMaking) => p.ToUnlock?
    case Tracks(ReleaseLock) => p.BetweenActions?
    case Tracks(AnswerTimeout) => p.ToReset?
    case Tracks(OfferDropped) => p.ToReset?
  }

  /** And what it takes something away from. */
  predicate Leaves(e: Event, p: Place) {
    match e
    case Peer(NegotiationNeeded) => false
    case Peer(ChannelOpens) => false
    case Peer(TakeReply) => p.Waiting? || p.InLockedCh?
    case Peer(Retry) => p.Sleeping?
    case Peer(LockTimeout) => p.Waiting?
    case Peer(MakeOffer) => p.Granted?
    case Peer(HandleAnswer) => p.ServerAnswers?
    case Peer(HandleOffer) => p.ServerOffers?
    case Peer(SendAnswer) => false
    case Locking(HandleLock) => p.LockMsgs?
    case Locking(HandleLockReplyDropped) => p.LockMsgs?
    case Locking(HandleUnlock) => p.UnlockMsgs?
    case Locking(DeliverGrant) => p.GrantMsgs?
    case Locking(DeliverDenial) => p.DenialMsgs?
    case Answering(CheckOffer) => p.ClientOffers?
    case Answering(ApplyOffer) => p.InCheck?
    case Answering(_) => p.InAnswer?
    case Tracks(StartTracks) => false
    case Tracks(TakeTrack(_)) => p.BetweenActions?
    case Tracks(AcquireTimeout) => p.WantsLock?
    case Tracks(Acquire) => p.WantsLock?
    case Tracks(GiveUpTrack) => p.HasLock?
    case Tracks(SendOffer) => p.HasLock?
    case Tracks(ApplyAnswer) => p.AwaitsAnswer? || p.ClientAnswers?
    case Tracks(ResetMaking) => p.ToReset?
    case Tracks(ReleaseLock) => p.ToUnlock?
    case Tracks(AnswerTimeout) => p.AwaitsAnswer?
    case Tracks(OfferDropped) => p.HasLock?
  }

  ghost function Entered(ss: seq<State>, es: seq<Event>, i: nat, p: Place): nat
    requires i <= |es| && |ss| == |es| + 1
  {
    if i == 0 then 0 else Entered(ss, es, i - 1, p) + Bit(Enters(ss[i - 1], es[i - 1], p))
  }

  function Left(es: seq<Event>, i: nat, p: Place): nat
    requires i <= |es|
  {
    if i == 0 then 0 else Left(es, i - 1, p) + Bit(Leaves(es[i - 1], p))
  }

  predicate OnNet(p: Place) {
    || p.LockMsgs? || p.UnlockMsgs? || p.GrantMsgs? || p.DenialMsgs?
    || p.ClientOffers? || p.ClientAnswers? || p.ServerOffers? || p.ServerAnswers?
  }

  lemma OffersOnNet(s: State, e: ClientEvent, p: Place)
    requires CanClient(s, e) && OnNet(p) && (e.NegotiationNeeded? || e.MakeOffer?)
    ensures Content(DoClient(s, e), p) + Bit(Leaves(Peer(e), p)) == Content(s, p) + Bit(Enters(s, Peer(e), p))
  {
  }

  lemma OffersAtEnds(s: State, e: ClientEvent, p: Place)
    requires CanClient(s, e) && !OnNet(p) && (e.NegotiationNeeded? || e.MakeOffer?)
    ensures Content(DoClient(s, e), p) + Bit(Leaves(Peer(e), p)) == Content(s, p) + Bit(Enters(s, Peer(e), p))
  {
  }

  lemma HandlesOnNet(s: State, e: ClientEvent, p: Place)
    requires CanClient(s, e) && OnNet(p) && (e.HandleAnswer? || e.HandleOffer? || e.SendAnswer?)
    ensures Content(DoClient(s, e), p) + Bit(Leaves(Peer(e), p)) == Content(s, p) + Bit(Enters(s, Peer(e), p))
  {
  }

  lemma HandlesAtEnds(s: State, e: ClientEvent, p: Place)
    requires CanClient(s, e) && !OnNet(p) && (e.HandleAnswer? || e.HandleOffer? || e.SendAnswer?)
    ensures Content(DoClient(s, e), p) + Bit(Leaves(Peer(e), p)) == Content(s, p) + Bit(Enters(s, Peer(e), p))
  {
  }

  lemma AsksOnNet(s: State, e: ClientEvent, p: Place)
    requires CanClient(s, e) && OnNet(p) && (e.ChannelOpens? || e.TakeReply? || e.Retry? || e.LockTimeout?)
    ensures Content(DoClient(s, e), p) + Bit(Leaves(Peer(e), p)) == Content(s, p) + Bit(Enters(s, Peer(e), p))
  {
  }

  lemma AsksAtEnds(s: State, e: ClientEvent, p: Place)
    requires CanClient(s, e) && !OnNet(p) && (e.ChannelOpens? || e.TakeReply? || e.Retry? || e.LockTimeout?)
    ensures Content(DoClient(s, e), p) + Bit(Leaves(Peer(e), p)) == Content(s, p) + Bit(Enters(s, Peer(e), p))
  {
  }

  lemma ClientFlows(s: State, e: ClientEvent, p: Place)
    requires CanClient(s, e)
    ensures Content(DoClient(s, e), p) + Bit(Leaves(Peer(e), p)) == Content(s, p) + Bit(Enters(s, Peer(e), p))
  {
    hide CanClient, DoClient, Content, Enters, Leaves, OnNet;
    if OnNet(p) && (e.NegotiationNeeded? || e.MakeOffer?) {
      OffersOnNet(s, e, p);
    } else if OnNet(p) && (e.HandleAnswer? || e.HandleOffer? || e.SendAnswer?) {
      HandlesOnNet(s, e, p);
    } else if OnNet(p) && (e.ChannelOpens? || e.TakeReply? || e.Retry? || e.LockTimeout?) {
      AsksOnNet(s, e, p);
    } else if e.NegotiationNeeded? || e.MakeOffer? {
      OffersAtEnds(s, e, p);
    } else if e.HandleAnswer? || e.HandleOffer? || e.SendAnswer? {
      HandlesAtEnds(s, e, p);
    } else {
      AsksAtEnds(s, e, p);
    }
  }

  lemma DeliversOnNet(s: State, e: LockEvent, p: Place)
    requires CanLock(s, e) && OnNet(p) && (e.DeliverGrant? || e.DeliverDenial?)
    ensures Content(DoLock(s, e), p) + Bit(Leaves(Locking(e), p)) == Content(s, p) + Bit(Enters(s, Locking(e), p))
  {
  }

  lemma DeliversAtEnds(s: State, e: LockEvent, p: Place)
    requires CanLock(s, e) && !OnNet(p) && (e.DeliverGrant? || e.DeliverDenial?)
    ensures Content(DoLock(s, e), p) + Bit(Leaves(Locking(e), p)) == Content(s, p) + Bit(Enters(s, Locking(e), p))
  {
  }

  lemma LocksOnNet(s: State, e: LockEvent, p: Place)
    requires CanLock(s, e) && OnNet(p) && (e.HandleLock? || e.HandleLockReplyDropped? || e.HandleUnlock?)
    ensures Content(DoLock(s, e), p) + Bit(Leaves(Locking(e), p)) == Content(s, p) + Bit(Enters(s, Locking(e), p))
  {
  }

  lemma LocksAtEnds(s: State, e: LockEvent, p: Place)
    requires CanLock(s, e) && !OnNet(p) && (e.HandleLock? || e.HandleLockReplyDropped? || e.HandleUnlock?)
    ensures Content(DoLock(s, e), p) + Bit(Leaves(Locking(e), p)) == Content(s, p) + Bit(Enters(s, Locking(e), p))
  {
  }

  lemma LockFlows(s: State, e: LockEvent, p: Place)
    requires CanLock(s, e)
    ensures Content(DoLock(s, e), p) + Bit(Leaves(Locking(e), p)) == Content(s, p) + Bit(Enters(s, Locking(e), p))
  {
    hide CanLock, DoLock, Content, Enters, Leaves, OnNet;
    if OnNet(p) && (e.DeliverGrant? || e.DeliverDenial?) {
      DeliversOnNet(s, e, p);
    } else if OnNet(p) && (e.HandleLock? || e.HandleLockReplyDropped? || e.HandleUnlock?) {
      LocksOnNet(s, e, p);
    } else if e.DeliverGrant? || e.DeliverDenial? {
      DeliversAtEnds(s, e, p);
    } else {
      LocksAtEnds(s, e, p);
    }
  }

  lemma AnswerOnNet(s: State, e: AnswerEvent, p: Place)
    requires CanAnswer(s, e) && OnNet(p)
    ensures Content(DoAnswer(s, e), p) + Bit(Leaves(Answering(e), p)) == Content(s, p) + Bit(Enters(s, Answering(e), p))
  {
  }

  lemma AnswerAtEnds(s: State, e: AnswerEvent, p: Place)
    requires CanAnswer(s, e) && !OnNet(p)
    ensures Content(DoAnswer(s, e), p) + Bit(Leaves(Answering(e), p)) == Content(s, p) + Bit(Enters(s, Answering(e), p))
  {
  }

  lemma AnswerFlows(s: State, e: AnswerEvent, p: Place)
    requires CanAnswer(s, e)
    ensures Content(DoAnswer(s, e), p) + Bit(Leaves(Answering(e), p)) == Content(s, p) + Bit(Enters(s, Answering(e), p))
  {
    hide CanAnswer, DoAnswer, Content, Enters, Leaves, OnNet;
    if OnNet(p) {
      AnswerOnNet(s, e, p);
    } else {
      AnswerAtEnds(s, e, p);
    }
  }

  lemma TrackOnNet(s: State, e: TrackEvent, p: Place)
    requires CanTrack(s, e) && OnNet(p)
    ensures Content(DoTrack(s, e), p) + Bit(Leaves(Tracks(e), p)) == Content(s, p) + Bit(Enters(s, Tracks(e), p))
  {
  }

  lemma TrackAtEnds(s: State, e: TrackEvent, p: Place)
    requires CanTrack(s, e) && !OnNet(p)
    ensures Content(DoTrack(s, e), p) + Bit(Leaves(Tracks(e), p)) == Content(s, p) + Bit(Enters(s, Tracks(e), p))
  {
  }

  lemma TrackFlows(s: State, e: TrackEvent, p: Place)
    requires CanTrack(s, e)
    ensures Content(DoTrack(s, e), p) + Bit(Leaves(Tracks(e), p)) == Content(s, p) + Bit(Enters(s, Tracks(e), p))
  {
    hide CanTrack, DoTrack, Content, Enters, Leaves, OnNet;
    if OnNet(p) {
      TrackOnNet(s, e, p);
    } else {
      TrackAtEnds(s, e, p);
    }
  }

  lemma StepFlows(s: State, e: Event, s': State, p: Place)
    requires Step(s, e, s')
    ensures Content(s', p) + Bit(Leaves(e, p)) == Content(s, p) + Bit(Enters(s, e, p))
  {
    hide CanClient, CanLock, CanAnswer, CanTrack, DoClient, DoLock, DoAnswer, DoTrack, Content, Enters, Leaves;
    match e
    case Peer(c) => ClientFlows(s, c, p);
    case Locking(l) => LockFlows(s, l, p);
    case Answering(a) => AnswerFlows(s, a, p);
    case Tracks(t) => TrackFlows(s, t, p);
  }

  /** Nothing is lost, doubled or made up on the way, be it a message, a negotiator, an offer or a
      track action: at every place there is what has come to it and has not left it. */
  lemma {:induction false} FlowsAreConserved(ss: seq<State>, es: seq<Event>, i: nat, p: Place)
    requires IsRun(ss, es) && Initial(ss[0]) && i <= |es|
    ensures Entered(ss, es, i, p) == Content(ss[i], p) + Left(es, i, p)
  {
    if i > 0 {
      FlowsAreConserved(ss, es, i - 1, p);
      assert Step(ss[i - 1], es[i - 1], ss[i]);
      hide IsRun, Initial, Step, Content, Enters, Leaves;
      StepFlows(ss[i - 1], es[i - 1], ss[i], p);
    }
  }

  // ------------------------------------------------ what a dropped reply costs

  /** A granted reply was lost, or the answer to an offer made under the lock. */
  predicate Blocked(s: State) { s.lost > 0 || (s.unanswered > 0 && s.cli.negotiated) }

  lemma BlockedState(s: State)
    requires Inv(s) && Blocked(s)
    ensures s.srv.lock && !ServerOfferOutstanding(s)
    ensures s.lost > 0 ==> !ClientOfferOutstanding(s)
    ensures forall e :: Can(s, e) ==> e !in {Tracks(Acquire), Tracks(SendOffer), Peer(MakeOffer)}
  {
  }

  lemma BlockedStep(s: State, e: Event, s': State)
    requires Step(s, e, s')
    ensures s'.lost >= s.lost && s'.unanswered >= s.unanswered && (s.cli.negotiated ==> s'.cli.negotiated)
  {
  }

  lemma {:induction false} StaysBlocked(ss: seq<State>, es: seq<Event>, i: nat, j: nat)
    requires IsRun(ss, es) && i <= j <= |es|
    ensures ss[i].lost <= ss[j].lost && (Blocked(ss[i]) ==> Blocked(ss[j]))
  {
    if i < j {
      StaysBlocked(ss, es, i, j - 1);
      assert Step(ss[j - 1], es[j - 1], ss[j]);
      hide IsRun, Step;
      BlockedStep(ss[j - 1], es[j - 1], ss[j]);
    }
  }

  /** Once a granted reply, or an answer under the lock, is dropped on a full channel, the lock
      is never free again: from then on nobody offers, the track goroutine can only time out,
      and every lock request is denied. */
  lemma DroppedReplyIsForever(ss: seq<State>, es: seq<Event>, i: nat, j: nat)
    requires TimelyRun(ss, es) && i <= j <= |es| && Blocked(ss[i])
    ensures ss[j].srv.lock
    ensures !ServerOfferOutstanding(ss[j]) && (ss[i].lost > 0 ==> !ClientOfferOutstanding(ss[j]))
    ensures forall e :: Can(ss[j], e) ==> e !in {Tracks(Acquire), Tracks(SendOffer), Peer(MakeOffer)}
  {
    RunsKeepInv(ss, es, j);
    StaysBlocked(ss, es, i, j);
    hide TimelyRun, Inv, Can;
    BlockedState(ss[j]);
  }

  // ------------------------------------------- what an abandoned offer costs

  /** One more event at the end of a run. */
  lemma Then(ss: seq<State>, es: seq<Event>, e: Event) returns (ss': seq<State>, es': seq<Event>)
    requires IsRun(ss, es) && Can(ss[|es|], e)
    ensures |ss'| == |es'| + 1 && IsRun(ss', es') && es' == es + [e]
    ensures ss'[0] == ss[0] && ss'[|es'|] == Do(ss[|es|], e)
  {
    ss', es' := ss + [Do(ss[|es|], e)], es + [e];
    hide Do, Can;
    forall i | 0 <= i < |es'| ensures Step(ss'[i], es'[i], ss'[i + 1]) {
      if i < |es| {
        assert Step(ss[i], es[i], ss[i + 1]);
      }
    }
  }

  /** The lock is free again, but the server still waits in have-local-offer. */
  ghost predicate Abandoned(s: State) {
    && !s.srv.lock && s.srv.sig == HaveLocalOffer && s.srv.answerer == Free
    && s.srv.ignored == 0 && s.errors == 0
    && s.cli.started && s.cli.dcOpen && s.net.clientOffers == 0
    && s.cli.sig != HaveLocalOffer && s.cli.lockedCh != Full(true)
  }

  /** And the client is free to offer. */
  ghost predicate Ready(s: State) {
    Abandoned(s) && s.cli.sig == Stable && s.cli.lockedCh == Empty
  }

  /** The run goes on from ss, es by the events in `more`. */
  ghost predicate Continues(ss: seq<State>, es: seq<Event>, more: seq<Event>, ss': seq<State>, es': seq<Event>) {
    |ss'| == |es'| + 1 && IsRun(ss', es') && ss != [] && ss'[0] == ss[0] && es' == es + more
  }

  /** What an abandoned exchange leads to as soon as the client needs to negotiate. */
  lemma ReadyDropsOffer(ss: seq<State>, es: seq<Event>)
    returns (ss': seq<State>, es': seq<Event>, more: seq<Event>)
    requires |ss| == |es| + 1 && IsRun(ss, es) && Ready(ss[|es|])
    ensures Continues(ss, es, more, ss', es') && Faultless(more)
    ensures ss'[|es'|].srv.ignored == 1
  {
    hide IsRun;
    ss', es' := AsksForLock(ss, es);
    ss', es' := Then(ss', es', Peer(TakeReply));
    ss', es' := Then(ss', es', Peer(MakeOffer));
    ss', es' := Then(ss', es', Answering(CheckOffer));
    more := [Peer(NegotiationNeeded), Locking(HandleLock), Locking(DeliverGrant), Peer(TakeReply), Peer(MakeOffer),
             Answering(CheckOffer)];
    assert es' == es + more;
  }

  /** A negotiator asks for the free lock, and its grant arrives. */
  lemma AsksForLock(ss: seq<State>, es: seq<Event>) returns (ss': seq<State>, es': seq<Event>)
    requires |ss| == |es| + 1 && IsRun(ss, es)
    requires var s := ss[|es|]; !s.srv.lock && s.cli.started && s.cli.dcOpen && s.cli.lockedCh == Empty
    ensures Continues(ss, es, [Peer(NegotiationNeeded), Locking(HandleLock), Locking(DeliverGrant)], ss', es')
    ensures var s, s' := ss[|es|], ss'[|es'|];
      s' == s.(srv := s.srv.(lock := true), cli := s.cli.(waiting := s.cli.waiting + 1, lockedCh := Full(true)))
  {
    hide IsRun;
    ss', es' := Then(ss, es, Peer(NegotiationNeeded));
    ss', es' := Then(ss', es', Locking(HandleLock));
    ss', es' := Then(ss', es', Locking(DeliverGrant));
  }

  lemma FaultAbandons(s: State, e: Event) returns (ss: seq<State>, es: seq<Event>)
    requires Inv(s) && Can(s, e) && Faulty(e)
    ensures |ss| == |es| + 1 && IsRun(ss, es) && ss[0] == s && es == [e, Tracks(ResetMaking), Tracks(ReleaseLock)]
    ensures Abandoned(ss[|es|])
  {
    ss, es := Then([s], [], e);
    ss, es := Then(ss, es, Tracks(ResetMaking));
    ss, es := Then(ss, es, Tracks(ReleaseLock));
  }

  lemma AbandonedGetsReady(ss: seq<State>, es: seq<Event>)
    returns (ss': seq<State>, es': seq<Event>, more: seq<Event>)
    requires |ss| == |es| + 1 && IsRun(ss, es) && Abandoned(ss[|es|])
    ensures Continues(ss, es, more, ss', es') && Faultless(more)
    ensures Ready(ss'[|es'|])
  {
    ss', es', more := ss, es, [];
    hide IsRun;
    if ss[|es|].cli.sig == HaveRemoteOffer {
      ss', es' := Then(ss', es', Peer(SendAnswer));
      more := [Peer(SendAnswer)];
    }
    if ss[|es|].cli.lockedCh.Full? {
      // a stale denial: one negotiator takes it and goes to sleep
      ss', es' := Then(ss', es', Peer(NegotiationNeeded));
      ss', es' := Then(ss', es', Peer(TakeReply));
      more := more + [Peer(NegotiationNeeded), Peer(TakeReply)];
    }
    assert es' == es + more;
  }

  /** The conflict branch is reachable exactly through abandoned offers: timely runs never meet
      it, and every fault, in every state a timely run can be in, can be followed by a client
      offer that is silently ignored. */
  lemma FaultCanDropOffer(s: State, e: Event) returns (ss: seq<State>, es: seq<Event>)
    requires Inv(s) && Can(s, e) && Faulty(e)
    ensures IsRun(ss, es) && ss[0] == s && es != [] && es[0] == e && Faultless(es[1..])
    ensures s.srv.ignored == 0 && ss[|es|].srv.ignored == 1
  {
    ss, es := FaultAbandons(s, e);
    ghost var first := es;
    var more, last;
    ss, es, more := AbandonedGetsReady(ss, es);
    ss, es, last := ReadyDropsOffer(ss, es);
    hide Inv, IsRun, Can, Ready, Abandoned;
    assert es[1..] == [Tracks(ResetMaking), Tracks(ReleaseLock)] + more + last;
  }
}
