/** How one session ends: any number of CloseSession callers (leave messages,
    connection-state callbacks, the negotiation goroutine itself), the negotiation
    goroutine and the ICE goroutine it joins, interleaved at every lock section and
    channel operation. Session identifiers are unique, so one session is followed. */
module CloseProtocol {

  /** A call of CloseSession. `won` tells the caller that found the session registered. */
  datatype Closer =
    | Entered
    | Found        // removed the session from Server.sessions
    | Counted      // decremented the sessions gauge
    | Cleaned      // handleSessionClose done, session out of the call
    | Signaled     // closed closeCh
    | Waiting      // closed the peer connection, blocked on doneCh
    | Woken        // doneCh seen closed, about to run closeCb
    | Returned(won: bool)

  /** Server.handleDCNegotiation and, inside it, Server.handleTracks. */
  datatype Negotiator =
    | Unborn            // InitSession has not started the goroutine yet
    | FirstOffer        // the initial select
    | Signaling         // answering the initial offer
    | Failed            // error or timeout, nothing closed yet
    | OwnClose(id: nat) // closed doneCh itself, inside its own CloseSession call
    | AwaitDC           // ICE goroutine started, waiting for the data channel
    | Serving           // the select of the outgoing offers loop
    | Locking           // a track action taken, waiting for the signaling lock
    | Negotiating       // in addTrack or removeTrack, waiting for the answer
    | Unlocking
    | JoinIce           // <-iceDoneCh
    | Deferred          // about to run the deferred close of doneCh
    | Ended

  datatype Ice = IceOff | IceRunning | IceDone

  datatype Winner = Nobody | Won(id: nat)

  /** The channel counters count executed close() calls; a second one would panic.
      `late` bounds the track actions that goroutines which already hold the session
      may still push once it has left the call, `lateIce` the same for candidates. */
  datatype State = State(
    registered: bool,
    inCall: bool,
    winner: Winner,
    closers: map<nat, Closer>,
    negotiator: Negotiator,
    ice: Ice,
    tracks: nat, candidates: nat,
    late: nat, lateIce: nat,
    closeChCloses: nat, doneChCloses: nat, gaugeDecs: nat, callbacks: nat)

  const TracksChSize := 100
  const IceChSize := 40

  predicate Initial(s: State) {
    && s.registered && s.inCall && s.winner.Nobody? && s.closers == map[]
    && s.negotiator.Unborn? && s.ice.IceOff? && s.tracks == 0 && s.candidates == 0
    && s.closeChCloses == 0 && s.doneChCloses == 0 && s.gaugeDecs == 0 && s.callbacks == 0
  }

  /** What the negotiation goroutine can do next. */
  datatype Move =
    | Spawn | TakeFirstOffer | AnswerFails | AnswerWorks | OfferTimeout | StopBeforeOffer
    | CloseDoneFirst(own: nat) | OwnCloseReturns
    | DataChannelOpens(joined: nat) | StopBeforeChannel
    | TakeTrack | LockTaken | LockTimeout | NegotiationEnds | NegotiationAborted | ReleaseLock
    | StopServing | JoinedIce | RunDeferred

  datatype Event =
    | Enter(c: nat)               // somebody calls CloseSession
    | Advance(c: nat)             // the next step of a CloseSession call
    | Negotiate(move: Move)
    | TakeCandidate | StopIce     // ICE goroutine
    | PushTrack | PushCandidate   // everybody else

  predicate Closing(s: State) { s.closeChCloses > 0 }

  predicate CanAdvance(s: State, c: nat) {
    c in s.closers && !s.closers[c].Returned? && (s.closers[c] == Waiting ==> s.doneChCloses > 0)
  }

  predicate CanMove(s: State, m: Move) {
    match m
    case Spawn => s.negotiator == Unborn
    case TakeFirstOffer => s.negotiator == FirstOffer
    case AnswerFails => s.negotiator == Signaling
    case AnswerWorks => s.negotiator == Signaling
    case OfferTimeout => s.negotiator == FirstOffer
    case StopBeforeOffer => s.negotiator == FirstOffer && Closing(s)
    case CloseDoneFirst(own) => s.negotiator == Failed && own !in s.closers
    case OwnCloseReturns =>
      s.negotiator.OwnClose? && s.negotiator.id in s.closers && s.closers[s.negotiator.id].Returned?
    case DataChannelOpens(joined) => s.negotiator == AwaitDC && s.tracks + joined <= TracksChSize
    case StopBeforeChannel => s.negotiator == AwaitDC && Closing(s)
    case TakeTrack => s.negotiator == Serving && s.tracks > 0
    case LockTaken => s.negotiator == Locking
    case LockTimeout => s.negotiator == Locking
    case NegotiationEnds => s.negotiator == Negotiating
    case NegotiationAborted => s.negotiator == Negotiating && Closing(s)
    case ReleaseLock => s.negotiator == Unlocking
    case StopServing => s.negotiator == Serving && Closing(s)
    case JoinedIce => s.negotiator == JoinIce && s.ice == IceDone
    case RunDeferred => s.negotiator == Deferred
  }

  predicate Can(s: State, e: Event) {
    match e
    case Enter(c) => c !in s.closers
    case Advance(c) => CanAdvance(s, c)
    case Negotiate(m) => CanMove(s, m)
    case TakeCandidate => s.ice == IceRunning && s.candidates > 0
    case StopIce => s.ice == IceRunning && Closing(s)
    case PushTrack => s.inCall || s.late > 0
    case PushCandidate => s.registered || s.lateIce > 0
  }

  function SetCloser(s: State, c: nat, pc: Closer): State {
    s.(closers := s.closers[c := pc])
  }

  function DoAdvance(s: State, c: nat): State
    requires CanAdvance(s, c)
  {
    match s.closers[c]
    case Entered =>
      if s.registered then SetCloser(s, c, Found).(registered := false, winner := Won(c))
      else SetCloser(s, c, Returned(false))
    case Found => SetCloser(s, c, Counted).(gaugeDecs := s.gaugeDecs + 1)
    case Counted => SetCloser(s, c, Cleaned).(inCall := false)
    case Cleaned => SetCloser(s, c, Signaled).(closeChCloses := s.closeChCloses + 1)
    case Signaled => SetCloser(s, c, Waiting)
    case Waiting => SetCloser(s, c, Woken)
    case Woken => SetCloser(s, c, Returned(true)).(callbacks := s.callbacks + 1)
  }

  function DoMove(s: State, m: Move): State
    requires CanMove(s, m)
  {
    match m
    case Spawn => s.(negotiator := FirstOffer)
    case TakeFirstOffer => s.(negotiator := Signaling)
    case AnswerFails => s.(negotiator := Failed)
    case AnswerWorks => s.(negotiator := AwaitDC, ice := IceRunning)
    case OfferTimeout => s.(negotiator := Failed)
    case StopBeforeOffer => s.(negotiator := Deferred)
    case CloseDoneFirst(own) =>
      SetCloser(s, own, Entered).(negotiator := OwnClose(own), doneChCloses := s.doneChCloses + 1)
    case OwnCloseReturns => s.(negotiator := Deferred)
    case DataChannelOpens(joined) => s.(negotiator := Serving, tracks := s.tracks + joined)
    case StopBeforeChannel => s.(negotiator := JoinIce)
    case TakeTrack => s.(negotiator := Locking, tracks := s.tracks - 1)
    case LockTaken => s.(negotiator := Negotiating)
    case LockTimeout => s.(negotiator := Serving)
    case NegotiationEnds => s.(negotiator := Unlocking)
    case NegotiationAborted => s.(negotiator := Unlocking)
    case ReleaseLock => s.(negotiator := Serving)
    case StopServing => s.(negotiator := JoinIce)
    case JoinedIce => s.(negotiator := Deferred)
    case RunDeferred =>
      s.(negotiator := Ended, doneChCloses := if s.doneChCloses > 0 then s.doneChCloses else 1)
  }

  function Do(s: State, e: Event): State
    requires Can(s, e)
  {
    match e
    case Enter(c) => SetCloser(s, c, Entered)
    case Advance(c) => DoAdvance(s, c)
    case Negotiate(m) => DoMove(s, m)
    case TakeCandidate => s.(candidates := s.candidates - 1)
    case StopIce => s.(ice := IceDone)
    case PushTrack =>
      s.(tracks := if s.tracks < TracksChSize then s.tracks + 1 else s.tracks,
         late := if s.inCall then s.late else s.late - 1)
    case PushCandidate =>
      s.(candidates := if s.candidates < IceChSize then s.candidates + 1 else s.candidates,
         lateIce := if s.registered then s.lateIce else s.lateIce - 1)
  }

  predicate Step(s: State, e: Event, s': State) {
    Can(s, e) && s' == Do(s, e)
  }

  ghost predicate IsRun(ss: seq<State>, es: seq<Event>) {
    && |ss| == |es| + 1
    && forall i :: 0 <= i < |es| ==> Step(ss[i], es[i], ss[i + 1])
  }

  // ------------------------------------------------------------------- safety

  function Bit(b: bool): nat { if b then 1 else 0 }

  predicate IsWinning(pc: Closer) { !pc.Entered? && (pc.Returned? ==> pc.won) }

  /** How far along CloseSession the winner is. */
  function Progress(pc: Closer): nat {
    match pc
    case Entered => 0
    case Found => 1
    case Counted => 2
    case Cleaned => 3
    case Signaled => 4
    case Waiting => 5
    case Woken => 6
    case Returned(won) => if won then 7 else 0
  }

  function WinnerProgress(s: State): nat {
    if s.winner.Won? && s.winner.id in s.closers then Progress(s.closers[s.winner.id]) else 0
  }

  /** Exactly one caller can be past the lookup, and it alone accounts for every effect. */
  ghost predicate OneWinner(s: State) {
    && (s.registered <==> s.winner.Nobody?)
    && (s.winner.Won? ==> s.winner.id in s.closers)
    && (forall c :: c in s.closers ==> (IsWinning(s.closers[c]) <==> s.winner == Won(c)))
    && s.gaugeDecs == Bit(WinnerProgress(s) >= 2)
    && (s.inCall <==> WinnerProgress(s) < 3)
    && s.closeChCloses == Bit(WinnerProgress(s) >= 4)
    && s.callbacks == Bit(WinnerProgress(s) >= 7)
    && (WinnerProgress(s) >= 6 ==> s.doneChCloses > 0)
  }

  /** The ICE goroutine runs once the initial offer has been answered. */
  predicate PastFirstOffer(n: Negotiator) {
    n.AwaitDC? || n.Serving? || n.Locking? || n.Negotiating? || n.Unlocking? || n.JoinIce?
  }

  /** doneCh is closed once: by a negotiator that failed, or by the deferred function. */
  ghost predicate DoneOnce(s: State) {
    && (s.negotiator.OwnClose? ==> s.doneChCloses == 1 && s.negotiator.id in s.closers)
    && (s.negotiator.Ended? ==> s.doneChCloses == 1)
    && (s.negotiator.Deferred? ==> s.doneChCloses <= 1)
    && (s.doneChCloses > 0 ==> s.negotiator.OwnClose? || s.negotiator.Deferred? || s.negotiator.Ended?)
    && (PastFirstOffer(s.negotiator) ==> !s.ice.IceOff?)
    && (s.negotiator.Unborn? || s.negotiator.FirstOffer? || s.negotiator.Signaling? ==> s.ice.IceOff?)
    && s.tracks <= TracksChSize && s.candidates <= IceChSize
  }

  ghost predicate Inv(s: State) { OneWinner(s) && DoneOnce(s) }

  /** The steps of a caller that has found the session. */
  lemma WinnerKeepsOneWinner(s: State, c: nat)
    requires Inv(s) && CanAdvance(s, c) && !s.closers[c].Entered?
    ensures OneWinner(DoAdvance(s, c))
  {
    assert s.winner == Won(c);
    hide DoneOnce;
  }

  lemma LookupKeepsOneWinner(s: State, c: nat)
    requires Inv(s) && CanAdvance(s, c) && s.closers[c].Entered?
    ensures OneWinner(DoAdvance(s, c))
  {
    hide DoneOnce;
  }

  lemma AdvanceKeepsDoneOnce(s: State, c: nat)
    requires DoneOnce(s) && CanAdvance(s, c)
    ensures DoneOnce(DoAdvance(s, c))
  {
  }

  /** The goroutine enters its own call as a caller that has found nothing yet. */
  lemma OwnCallKeepsOneWinner(s: State, own: nat)
    requires OneWinner(s) && CanMove(s, CloseDoneFirst(own))
    ensures OneWinner(DoMove(s, CloseDoneFirst(own)))
  {
    StartsLosing();
    hide Progress, IsWinning;
  }

  lemma MoveKeepsOneWinner(s: State, m: Move)
    requires OneWinner(s) && CanMove(s, m)
    ensures OneWinner(DoMove(s, m))
  {
    if m.CloseDoneFirst? {
      OwnCallKeepsOneWinner(s, m.own);
    } else {
      MoveLeavesCallers(s, m);
      hide Progress, CanMove, DoMove, IsWinning;
    }
  }

  lemma MoveLeavesCallers(s: State, m: Move)
    requires CanMove(s, m) && !m.CloseDoneFirst?
    ensures var s' := DoMove(s, m);
      && s'.closers == s.closers && s'.winner == s.winner && s'.registered == s.registered && s'.inCall == s.inCall
      && s'.gaugeDecs == s.gaugeDecs && s'.closeChCloses == s.closeChCloses && s'.callbacks == s.callbacks
      && s'.doneChCloses >= s.doneChCloses
  {
  }

  lemma StartsLosing()
    ensures !IsWinning(Entered)
  {
  }

  lemma MoveKeepsDoneOnce(s: State, m: Move)
    requires DoneOnce(s) && CanMove(s, m)
    ensures DoneOnce(DoMove(s, m))
  {
  }

  lemma OthersKeep(s: State, e: Event)
    requires Inv(s) && Can(s, e) && !e.Advance? && !e.Negotiate?
    ensures Inv(Do(s, e))
  {
  }

  lemma Preserved(s: State, e: Event)
    requires Inv(s) && Can(s, e)
    ensures Inv(Do(s, e))
  {
    hide OneWinner, DoneOnce, CanAdvance, CanMove, DoAdvance, DoMove;
    match e
    case Advance(c) =>
      AdvanceIsAdvance(s, c);
      if s.closers[c].Entered? {
        LookupKeepsOneWinner(s, c);
      } else {
        WinnerKeepsOneWinner(s, c);
      }
      AdvanceKeepsDoneOnce(s, c);
    case Negotiate(m) =>
      MoveKeepsOneWinner(s, m);
      MoveKeepsDoneOnce(s, m);
    case _ => OthersKeep(s, e);
  }

  lemma AdvanceIsAdvance(s: State, c: nat)
    requires CanAdvance(s, c)
    ensures c in s.closers
  {
  }

  lemma {:induction false} RunsKeepInv(ss: seq<State>, es: seq<Event>, i: nat)
    requires IsRun(ss, es) && Initial(ss[0]) && i <= |es|
    ensures Inv(ss[i])
  {
    if i > 0 {
      RunsKeepInv(ss, es, i - 1);
      assert Step(ss[i - 1], es[i - 1], ss[i]);
      hide Inv, IsRun, Initial, Can, Do;
      Preserved(ss[i - 1], es[i - 1]);
    }
  }

  /** Under every interleaving: no channel is closed twice, the gauge is decremented and
      the callback run at most once, by one and the same caller, in the order of the
      code, and the callback only once the negotiation goroutine is finished. */
  lemma EffectsHappenOnce(ss: seq<State>, es: seq<Event>, i: nat)
    requires IsRun(ss, es) && Initial(ss[0]) && i <= |es|
    ensures var s := ss[i];
      && s.callbacks <= s.closeChCloses <= s.gaugeDecs <= 1
      && s.doneChCloses <= 1 && s.callbacks <= s.doneChCloses
      && (s.closeChCloses == 1 ==> !s.inCall && !s.registered)
      && (forall c, d :: c in s.closers && d in s.closers && IsWinning(s.closers[c]) && IsWinning(s.closers[d])
            ==> c == d)
      && (forall c :: c in s.closers && s.closers[c] == Returned(true)
            ==> s.callbacks == s.closeChCloses == s.doneChCloses == s.gaugeDecs == 1)
  {
    RunsKeepInv(ss, es, i);
  }

  // ------------------------------------------------- what is over at the end

  predicate BeforeIce(n: Negotiator) { n.Unborn? || n.FirstOffer? || n.Signaling? || n.Failed? || n.OwnClose? }

  /** The ICE goroutine starts after the initial offer and is joined before doneCh is closed. */
  predicate Joined(s: State) {
    && (BeforeIce(s.negotiator) ==> s.ice.IceOff?)
    && (s.negotiator.Deferred? || s.negotiator.Ended? ==> !s.ice.IceRunning?)
  }

  lemma MoveJoins(s: State, m: Move)
    requires Joined(s) && CanMove(s, m)
    ensures Joined(DoMove(s, m))
  {
  }

  lemma AdvanceLeavesGoroutines(s: State, c: nat)
    requires CanAdvance(s, c)
    ensures DoAdvance(s, c).negotiator == s.negotiator && DoAdvance(s, c).ice == s.ice
  {
  }

  lemma StepJoins(s: State, e: Event, s': State)
    requires DoneOnce(s) && Joined(s) && Step(s, e, s')
    ensures Joined(s')
  {
    hide DoMove, DoAdvance, CanMove, CanAdvance;
    match e
    case Advance(c) => AdvanceLeavesGoroutines(s, c);
    case Negotiate(m) => MoveJoins(s, m);
    case _ =>
  }

  lemma {:induction false} RunsJoin(ss: seq<State>, es: seq<Event>, i: nat)
    requires IsRun(ss, es) && Initial(ss[0]) && i <= |es|
    ensures Joined(ss[i])
  {
    if i > 0 {
      RunsJoin(ss, es, i - 1);
      RunsKeepInv(ss, es, i - 1);
      assert Step(ss[i - 1], es[i - 1], ss[i]);
      hide IsRun, Initial, Step, Joined, OneWinner, DoneOnce;
      StepJoins(ss[i - 1], es[i - 1], ss[i]);
    }
  }

  /** Whoever sees doneCh closed finds neither of the two goroutines at work: the negotiation
      goroutine has ended, or is about to, or is itself inside CloseSession without ever having
      started the ICE goroutine; and that one has ended or never ran. */
  lemma DoneMeansOver(ss: seq<State>, es: seq<Event>, i: nat)
    requires IsRun(ss, es) && Initial(ss[0]) && i <= |es| && ss[i].doneChCloses > 0
    ensures !ss[i].ice.IceRunning?
    ensures ss[i].negotiator.Deferred? || ss[i].negotiator.Ended? || (ss[i].negotiator.OwnClose? && ss[i].ice.IceOff?)
  {
    RunsKeepInv(ss, es, i);
    RunsJoin(ss, es, i);
  }

  /** In particular whoever runs the callback. */
  lemma CallbackMeansOver(ss: seq<State>, es: seq<Event>, i: nat)
    requires IsRun(ss, es) && Initial(ss[0]) && i <= |es| && ss[i].callbacks == 1
    ensures ss[i].doneChCloses == 1 && !ss[i].ice.IceRunning? && !ss[i].inCall && !ss[i].registered
  {
    EffectsHappenOnce(ss, es, i);
    DoneMeansOver(ss, es, i);
  }

  // ----------------------------------------------------------------- progress

  /** Steps a CloseSession call still has to take. */
  function Rank(pc: Closer): nat {
    match pc
    case Entered => 7
    case Found => 6
    case Counted => 5
    case Cleaned => 4
    case Signaled => 3
    case Waiting => 2
    case Woken => 1
    case Returned(_) => 0
  }

  /** The program point of the negotiation goroutine as a distance to its end; one queued
      track action is worth 4. */
  function Distance(s: State): nat {
    match s.negotiator
    case Unborn => 407
    case FirstOffer => 406
    case Signaling => 405
    case Failed => 10
    case OwnClose(id) => 2 + if id in s.closers then Rank(s.closers[id]) else 0
    case AwaitDC => 4 * TracksChSize + 4
    case Serving => 3
    case Locking => 6
    case Negotiating => 5
    case Unlocking => 4
    case JoinIce => 2
    case Deferred => 1
    case Ended => 0
  }

  function Measure(s: State): nat {
    Distance(s) + 4 * (s.tracks + s.late)
    + Bit(s.ice != IceDone) + s.candidates + s.lateIce
  }

  /** The steps that finishing the negotiation goroutine takes. */
  predicate IsWork(s: State, e: Event) {
    e.Negotiate? || e.TakeCandidate? || e.StopIce? || (e.Advance? && s.negotiator == OwnClose(e.c))
  }

  lemma MoveDecreases(s: State, m: Move)
    requires Inv(s) && Closing(s) && CanMove(s, m)
    ensures Measure(DoMove(s, m)) < Measure(s)
  {
  }

  /** A caller's step changes its own program point and nothing the goroutine's measure sees. */
  lemma AdvanceRank(s: State, c: nat)
    requires CanAdvance(s, c)
    ensures var s' := DoAdvance(s, c);
      && c in s.closers && s'.closers.Keys == s.closers.Keys
      && (forall d :: d in s.closers && d != c ==> s'.closers[d] == s.closers[d])
      && Rank(s'.closers[c]) < Rank(s.closers[c])
      && s'.negotiator == s.negotiator && s'.closeChCloses >= s.closeChCloses
      && s'.tracks == s.tracks && s'.late == s.late && s'.ice == s.ice
      && s'.candidates == s.candidates && s'.lateIce == s.lateIce
  {
  }

  lemma AdvanceDecreases(s: State, c: nat)
    requires Closing(s) && CanAdvance(s, c)
    ensures Closing(DoAdvance(s, c)) && Measure(DoAdvance(s, c)) + Bit(s.negotiator == OwnClose(c)) <= Measure(s)
  {
    AdvanceRank(s, c);
    hide DoAdvance, CanAdvance, Rank;
  }

  lemma OthersDoNotRaise(s: State, e: Event)
    requires Inv(s) && Closing(s) && Can(s, e) && !e.Advance? && !e.Negotiate?
    ensures Closing(Do(s, e)) && Measure(Do(s, e)) + Bit(IsWork(s, e)) <= Measure(s)
  {
    ClosingIsOut(s);
    hide OneWinner;
  }

  /** A session is out of the call and unlisted before closeCh is closed. */
  lemma ClosingIsOut(s: State)
    requires OneWinner(s) && Closing(s)
    ensures !s.inCall && !s.registered
  {
  }

  lemma MeasureDecreases(s: State, e: Event, s': State)
    requires Inv(s) && Closing(s) && Step(s, e, s')
    ensures Closing(s') && Measure(s') + Bit(IsWork(s, e)) <= Measure(s)
  {
    hide Inv, CanAdvance, CanMove, DoAdvance, DoMove, Measure;
    match e
    case Advance(c) => AdvanceDecreases(s, c);
    case Negotiate(m) =>
      MoveDecreases(s, m);
      MoveKeepsClosing(s, m);
    case _ => OthersDoNotRaise(s, e);
  }

  lemma MoveKeepsClosing(s: State, m: Move)
    requires Closing(s) && CanMove(s, m)
    ensures Closing(DoMove(s, m))
  {
  }

  lemma {:induction false} FreshCaller<T>(m: map<nat, T>) returns (c: nat)
    ensures c !in m
  {
    var keys := m.Keys;
    c := 0;
    while keys != {}
      invariant keys <= m.Keys
      invariant forall k :: k in m && k !in keys ==> k < c
    {
      var k :| k in keys;
      keys := keys - {k};
      if c <= k {
        c := k + 1;
      }
    }
  }

  /** Once closeCh is closed the negotiation goroutine is never stuck. */
  lemma WorkIsEnabled(s: State) returns (e: Event)
    requires Inv(s) && Closing(s) && s.negotiator != Ended
    ensures IsWork(s, e) && Can(s, e)
  {
    var unused := FreshCaller(s.closers);
    match s.negotiator
    case Unborn => e := Negotiate(Spawn);
    case FirstOffer => e := Negotiate(StopBeforeOffer);
    case Signaling => e := Negotiate(AnswerFails);
    case Failed => e := Negotiate(CloseDoneFirst(unused));
    case OwnClose(id) => e := if s.closers[id].Returned? then Negotiate(OwnCloseReturns) else Advance(id);
    case AwaitDC => e := Negotiate(StopBeforeChannel);
    case Serving => e := Negotiate(StopServing);
    case Locking => e := Negotiate(LockTimeout);
    case Negotiating => e := Negotiate(NegotiationAborted);
    case Unlocking => e := Negotiate(ReleaseLock);
    case JoinIce => e := if s.ice == IceDone then Negotiate(JoinedIce) else StopIce;
    case Deferred => e := Negotiate(RunDeferred);
  }

  ghost function Work(ss: seq<State>, es: seq<Event>, i: nat, j: nat): nat
    requires i <= j <= |es| && |ss| == |es| + 1
  {
    if i == j then 0 else Work(ss, es, i, j - 1) + Bit(IsWork(ss[j - 1], es[j - 1]))
  }

  /** Where no step of the goroutine is left, it has ended. */
  lemma NoWorkMeansDone(s: State)
    requires Inv(s) && Closing(s)
    requires forall e :: Can(s, e) ==> !IsWork(s, e)
    ensures s.negotiator == Ended && s.doneChCloses == 1
    ensures forall c :: c in s.closers && !s.closers[c].Returned? ==> CanAdvance(s, c)
  {
    if s.negotiator != Ended {
      var e := WorkIsEnabled(s);
    }
  }

  lemma {:induction false} WorkIsBounded(ss: seq<State>, es: seq<Event>, i: nat, j: nat)
    requires IsRun(ss, es) && Initial(ss[0]) && i <= j <= |es| && Closing(ss[i])
    ensures Closing(ss[j]) && Measure(ss[j]) + Work(ss, es, i, j) <= Measure(ss[i])
  {
    if i < j {
      WorkIsBounded(ss, es, i, j - 1);
      RunsKeepInv(ss, es, j - 1);
      assert Step(ss[j - 1], es[j - 1], ss[j]);
      hide Inv, IsRun, Initial, Step, Measure, Closing, IsWork;
      MeasureDecreases(ss[j - 1], es[j - 1], ss[j]);
    }
  }

  /** Total correctness of the close: from the moment closeCh is closed the goroutine takes
      at most Measure more steps, whatever everybody else does and however often select
      prefers another ready case; and where no step of it is left, doneCh has been closed
      and nobody blocked on it stays blocked. */
  lemma CloseTerminates(ss: seq<State>, es: seq<Event>, i: nat, j: nat)
    requires IsRun(ss, es) && Initial(ss[0]) && i <= j <= |es| && Closing(ss[i])
    ensures Work(ss, es, i, j) <= Measure(ss[i])
    ensures (forall e :: Can(ss[j], e) ==> !IsWork(ss[j], e)) ==>
              ss[j].negotiator == Ended && ss[j].doneChCloses == 1
              && forall c :: c in ss[j].closers && !ss[j].closers[c].Returned? ==> CanAdvance(ss[j], c)
  {
    RunsKeepInv(ss, es, j);
    WorkIsBounded(ss, es, i, j);
    if forall e :: Can(ss[j], e) ==> !IsWork(ss[j], e) {
      NoWorkMeansDone(ss[j]);
    }
  }

  /** No caller can be blocked forever: while a CloseSession call has not returned, it
      can take a step itself or the negotiation goroutine it waits for can. */
  lemma NobodyDeadlocks(ss: seq<State>, es: seq<Event>, i: nat, c: nat) returns (e: Event)
    requires IsRun(ss, es) && Initial(ss[0]) && i <= |es|
    requires c in ss[i].closers && !ss[i].closers[c].Returned?
    ensures Can(ss[i], e) && (e == Advance(c) || (Closing(ss[i]) && IsWork(ss[i], e)))
  {
    RunsKeepInv(ss, es, i);
    if CanAdvance(ss[i], c) {
      e := Advance(c);
    } else {
      assert ss[i].winner == Won(c) && Closing(ss[i]);
      e := WorkIsEnabled(ss[i]);
    }
  }

  // ------------------------------------------------------- every close is a close

  /** Whoever looks the session up first has found it. */
  predicate Looked(s: State) {
    forall c :: c in s.closers && !s.closers[c].Entered? ==> s.winner.Won?
  }

  lemma AdvanceLooks(s: State, c: nat)
    requires OneWinner(s) && Looked(s) && CanAdvance(s, c)
    ensures Looked(DoAdvance(s, c)) && DoAdvance(s, c).closers.Keys == s.closers.Keys
  {
  }

  lemma OthersLook(s: State, e: Event)
    requires Looked(s) && Can(s, e) && !e.Advance?
    ensures Looked(Do(s, e)) && s.closers.Keys <= Do(s, e).closers.Keys
    ensures e.Enter? ==> e.c in Do(s, e).closers
  {
    match e
    case Negotiate(m) =>
      if !m.CloseDoneFirst? {
        MoveLeavesCallers(s, m);
        hide DoMove, CanMove;
      }
    case _ =>
  }

  lemma StepLooks(s: State, e: Event, s': State)
    requires OneWinner(s) && Looked(s) && Step(s, e, s')
    ensures Looked(s') && s.closers.Keys <= s'.closers.Keys
    ensures e.Enter? ==> e.c in s'.closers
  {
    hide Looked, OneWinner, CanAdvance, DoAdvance, CanMove, DoMove;
    if e.Advance? {
      AdvanceLooks(s, e.c);
    } else {
      OthersLook(s, e);
    }
  }

  lemma {:induction false} RunLooks(ss: seq<State>, es: seq<Event>, i: nat)
    requires IsRun(ss, es) && Initial(ss[0]) && i <= |es|
    ensures Looked(ss[i])
    ensures forall k :: 0 <= k < i && es[k].Enter? ==> es[k].c in ss[i].closers
  {
    if i > 0 {
      RunLooks(ss, es, i - 1);
      RunsKeepInv(ss, es, i - 1);
      assert Step(ss[i - 1], es[i - 1], ss[i]);
      hide IsRun, Initial, Step, Looked, OneWinner, DoneOnce;
      StepLooks(ss[i - 1], es[i - 1], ss[i]);
    }
  }

  /** Nothing of the close is left to do: no caller and no goroutine has a step. */
  ghost predicate Settled(s: State) {
    forall e :: Can(s, e) ==> !e.Advance? && !IsWork(s, e)
  }

  /** One call of CloseSession is enough, whoever makes it: when all that can still run has run,
      every caller has returned, the session is out of the server and its call, both goroutines are
      over, and each effect has happened. */
  lemma CloseHappens(ss: seq<State>, es: seq<Event>, i: nat, k: nat)
    requires IsRun(ss, es) && Initial(ss[0]) && k < i <= |es| && es[k].Enter? && Settled(ss[i])
    ensures var s := ss[i];
      && (forall c :: c in s.closers ==> s.closers[c].Returned?)
      && !s.registered && !s.inCall && s.negotiator == Ended && !s.ice.IceRunning?
      && s.gaugeDecs == s.closeChCloses == s.doneChCloses == s.callbacks == 1
  {
    var s := ss[i];
    RunsKeepInv(ss, es, i);
    RunLooks(ss, es, i);
    forall c | c in s.closers
      ensures s.closers[c].Returned?
    {
      if !s.closers[c].Returned? {
        var e := NobodyDeadlocks(ss, es, i, c);
      }
    }
    assert es[k].c in s.closers && s.winner.Won?;
    var w := s.winner.id;
    assert IsWinning(s.closers[w]);
    NoWorkMeansDone(s);
    RunsJoin(ss, es, i);
  }

  predicate Ending(n: Negotiator) { n.JoinIce? || n.Deferred? || n.Ended? }

  lemma MoveEnds(s: State, m: Move)
    requires OneWinner(s) && Looked(s) && (Ending(s.negotiator) ==> !s.registered) && CanMove(s, m)
    ensures Ending(DoMove(s, m).negotiator) ==> !s.registered
  {
    if m.OwnCloseReturns? {
      assert !s.closers[s.negotiator.id].Entered?;
      hide Looked;
    } else if Closing(s) {
      ClosingIsOut(s);
      hide OneWinner, Looked;
    } else {
      hide OneWinner, Looked;
    }
  }

  lemma AdvanceUnlists(s: State, c: nat)
    requires CanAdvance(s, c)
    ensures DoAdvance(s, c).registered ==> s.registered
  {
  }

  lemma StepEnds(s: State, e: Event, s': State)
    requires OneWinner(s) && Looked(s) && (Ending(s.negotiator) ==> !s.registered) && Step(s, e, s')
    ensures Ending(s'.negotiator) ==> !s'.registered
  {
    hide OneWinner, Looked, CanAdvance, DoAdvance, CanMove, DoMove;
    match e
    case Advance(c) =>
      AdvanceLeavesGoroutines(s, c);
      AdvanceUnlists(s, c);
    case Negotiate(m) =>
      MoveEnds(s, m);
      MoveLeavesRegistration(s, m);
    case _ =>
  }

  lemma MoveLeavesRegistration(s: State, m: Move)
    requires CanMove(s, m)
    ensures DoMove(s, m).registered == s.registered
  {
  }

  /** As long as the session is registered its negotiation goroutine is there: it ends only when
      the session has been found by a caller, which may be its own. */
  lemma {:induction false} RegisteredIsServed(ss: seq<State>, es: seq<Event>, i: nat)
    requires IsRun(ss, es) && Initial(ss[0]) && i <= |es|
    ensures Ending(ss[i].negotiator) ==> !ss[i].registered
  {
    if i > 0 {
      RegisteredIsServed(ss, es, i - 1);
      RunLooks(ss, es, i - 1);
      RunsKeepInv(ss, es, i - 1);
      assert Step(ss[i - 1], es[i - 1], ss[i]);
      hide IsRun, Initial, Step, Looked, OneWinner, DoneOnce, Ending;
      StepEnds(ss[i - 1], es[i - 1], ss[i]);
    }
  }

  // ------------------------------------------------------------- the track actions

  /** Between taking the signaling lock and releasing it. */
  predicate HoldsLock(s: State) { s.negotiator.Negotiating? || s.negotiator.Unlocking? }

  /** Track actions that have found room in the channel so far. */
  ghost function Received(ss: seq<State>, es: seq<Event>, i: nat): nat
    requires i <= |es| && |ss| == |es| + 1
  {
    if i == 0 then 0
    else
      Received(ss, es, i - 1)
      + match es[i - 1]
        case PushTrack => Bit(ss[i - 1].tracks < TracksChSize)
        case Negotiate(DataChannelOpens(joined)) => joined
        case _ => 0
  }

  ghost function ReceivedCandidates(ss: seq<State>, es: seq<Event>, i: nat): nat
    requires i <= |es| && |ss| == |es| + 1
  {
    if i == 0 then 0
    else
      ReceivedCandidates(ss, es, i - 1)
      + if es[i - 1] == PushCandidate then Bit(ss[i - 1].candidates < IceChSize) else 0
  }

  function Times(es: seq<Event>, e: Event): nat {
    if es == [] then 0 else Times(es[..|es| - 1], e) + Bit(es[|es| - 1] == e)
  }

  lemma TimesOneMore(es: seq<Event>, i: nat, e: Event)
    requires i < |es|
    ensures Times(es[..i + 1], e) == Times(es[..i], e) + Bit(es[i] == e)
  {
    assert es[..i + 1][..i] == es[..i];
  }

  lemma MoveServes(s: State, m: Move)
    requires CanMove(s, m)
    ensures DoMove(s, m).tracks + Bit(m.TakeTrack?) == s.tracks + if m.DataChannelOpens? then m.joined else 0
    ensures DoMove(s, m).candidates == s.candidates
    ensures Bit(DoMove(s, m).negotiator.Locking?) + Bit(m.LockTaken?) + Bit(m.LockTimeout?)
         == Bit(s.negotiator.Locking?) + Bit(m.TakeTrack?)
    ensures Bit(HoldsLock(DoMove(s, m))) + Bit(m.ReleaseLock?) == Bit(HoldsLock(s)) + Bit(m.LockTaken?)
  {
  }

  lemma StepTakes(s: State, e: Event, s': State)
    requires Step(s, e, s')
    ensures s'.candidates + Bit(e.TakeCandidate?)
         == s.candidates + if e == PushCandidate then Bit(s.candidates < IceChSize) else 0
  {
    match e
    case Advance(c) =>
      AdvanceRank(s, c);
      hide DoAdvance, CanAdvance;
    case Negotiate(m) =>
      MoveServes(s, m);
      hide DoMove, CanMove;
    case _ =>
  }

  lemma StepServes(s: State, e: Event, s': State)
    requires Step(s, e, s')
    ensures s'.tracks + Bit(e == Negotiate(TakeTrack))
         == s.tracks + match e
                       case PushTrack => Bit(s.tracks < TracksChSize)
                       case Negotiate(DataChannelOpens(joined)) => joined
                       case _ => 0
    ensures Bit(s'.negotiator.Locking?) + Bit(e == Negotiate(LockTaken)) + Bit(e == Negotiate(LockTimeout))
         == Bit(s.negotiator.Locking?) + Bit(e == Negotiate(TakeTrack))
    ensures Bit(HoldsLock(s')) + Bit(e == Negotiate(ReleaseLock)) == Bit(HoldsLock(s)) + Bit(e == Negotiate(LockTaken))
  {
    hide DoMove, CanMove;
    match e
    case Advance(c) =>
      AdvanceRank(s, c);
      hide DoAdvance, CanAdvance;
    case Negotiate(m) => MoveServes(s, m);
    case _ =>
  }

  lemma {:induction false} QueueIsConserved(ss: seq<State>, es: seq<Event>, i: nat)
    requires IsRun(ss, es) && Initial(ss[0]) && i <= |es|
    ensures Received(ss, es, i) == ss[i].tracks + Times(es[..i], Negotiate(TakeTrack))
  {
    if i > 0 {
      QueueIsConserved(ss, es, i - 1);
      TimesOneMore(es, i - 1, Negotiate(TakeTrack));
      assert Step(ss[i - 1], es[i - 1], ss[i]);
      hide IsRun, Initial, Step, Times;
      StepServes(ss[i - 1], es[i - 1], ss[i]);
    }
  }

  lemma {:induction false} WaitsAreConserved(ss: seq<State>, es: seq<Event>, i: nat)
    requires IsRun(ss, es) && Initial(ss[0]) && i <= |es|
    ensures Times(es[..i], Negotiate(TakeTrack))
         == Bit(ss[i].negotiator.Locking?) + Times(es[..i], Negotiate(LockTaken)) + Times(es[..i], Negotiate(LockTimeout))
  {
    if i > 0 {
      WaitsAreConserved(ss, es, i - 1);
      TimesOneMore(es, i - 1, Negotiate(TakeTrack));
      TimesOneMore(es, i - 1, Negotiate(LockTaken));
      TimesOneMore(es, i - 1, Negotiate(LockTimeout));
      assert Step(ss[i - 1], es[i - 1], ss[i]);
      hide IsRun, Initial, Step, Times;
      StepServes(ss[i - 1], es[i - 1], ss[i]);
    }
  }

  lemma {:induction false} LockIsConserved(ss: seq<State>, es: seq<Event>, i: nat)
    requires IsRun(ss, es) && Initial(ss[0]) && i <= |es|
    ensures Times(es[..i], Negotiate(LockTaken)) == Bit(HoldsLock(ss[i])) + Times(es[..i], Negotiate(ReleaseLock))
  {
    if i > 0 {
      LockIsConserved(ss, es, i - 1);
      TimesOneMore(es, i - 1, Negotiate(LockTaken));
      TimesOneMore(es, i - 1, Negotiate(ReleaseLock));
      assert Step(ss[i - 1], es[i - 1], ss[i]);
      hide IsRun, Initial, Step, Times;
      StepServes(ss[i - 1], es[i - 1], ss[i]);
    }
  }

  /** No track action gets lost on its way: each that found room is in the channel or was taken, and
      each that was taken is waiting for the lock, has had it, or has given up waiting; and the lock
      is held exactly between taking and releasing it. */
  lemma TracksAreServed(ss: seq<State>, es: seq<Event>, i: nat)
    requires IsRun(ss, es) && Initial(ss[0]) && i <= |es|
    ensures Received(ss, es, i) == ss[i].tracks + Times(es[..i], Negotiate(TakeTrack))
    ensures Times(es[..i], Negotiate(TakeTrack))
         == Bit(ss[i].negotiator.Locking?) + Times(es[..i], Negotiate(LockTaken)) + Times(es[..i], Negotiate(LockTimeout))
    ensures Times(es[..i], Negotiate(LockTaken)) == Bit(HoldsLock(ss[i])) + Times(es[..i], Negotiate(ReleaseLock))
  {
    QueueIsConserved(ss, es, i);
    WaitsAreConserved(ss, es, i);
    LockIsConserved(ss, es, i);
  }

  /** Nor does a candidate. */
  lemma {:induction false} CandidatesAreServed(ss: seq<State>, es: seq<Event>, i: nat)
    requires IsRun(ss, es) && Initial(ss[0]) && i <= |es|
    ensures ReceivedCandidates(ss, es, i) == ss[i].candidates + Times(es[..i], TakeCandidate)
  {
    if i > 0 {
      CandidatesAreServed(ss, es, i - 1);
      TimesOneMore(es, i - 1, TakeCandidate);
      assert Step(ss[i - 1], es[i - 1], ss[i]);
      hide IsRun, Initial, Step, Times;
      StepTakes(ss[i - 1], es[i - 1], ss[i]);
    }
  }

  // ------------------------------------------------------------- two whole lives

  /** One more step at the end of a run. */
  lemma Then(ss: seq<State>, es: seq<Event>, e: Event) returns (ss': seq<State>, es': seq<Event>)
    requires |ss| == |es| + 1 && IsRun(ss, es) && Can(ss[|es|], e)
    ensures |ss'| == |es'| + 1 && IsRun(ss', es') && ss'[0] == ss[0] && ss'[|es'|] == Do(ss[|es|], e)
    ensures es' == es + [e]
  {
    hide Do, Can;
    ss', es' := ss + [Do(ss[|es|], e)], es + [e];
    forall i | 0 <= i < |es'|
      ensures Step(ss'[i], es'[i], ss'[i + 1])
    {
      assert i < |es| ==> Step(ss[i], es[i], ss[i + 1]);
    }
  }

  /** The first offer is answered, a candidate comes in and is handled, the data channel opens with
      as many tracks to send as the channel holds. */
  lemma Opens(s: State, joined: nat) returns (ss: seq<State>, es: seq<Event>)
    requires Initial(s) && joined <= TracksChSize
    ensures |ss| == |es| + 1 && IsRun(ss, es) && ss[0] == s
    ensures ss[|es|] == s.(negotiator := Serving, ice := IceRunning, tracks := joined)
  {
    ss, es := [s], [];
    assert IsRun(ss, es);
    hide IsRun;
    ss, es := Then(ss, es, Negotiate(Spawn));
    ss, es := Then(ss, es, Negotiate(TakeFirstOffer));
    ss, es := Then(ss, es, Negotiate(AnswerWorks));
    ss, es := Then(ss, es, PushCandidate);
    ss, es := Then(ss, es, TakeCandidate);
    ss, es := Then(ss, es, Negotiate(DataChannelOpens(joined)));
  }

  /** A track action that does not get the lock, and one that does. */
  lemma ServesTwo(ss: seq<State>, es: seq<Event>) returns (ss': seq<State>, es': seq<Event>)
    requires |ss| == |es| + 1 && IsRun(ss, es)
    requires var s := ss[|es|]; s.negotiator == Serving && s.inCall && 0 < s.tracks <= TracksChSize
    ensures |ss'| == |es'| + 1 && IsRun(ss', es') && ss'[0] == ss[0]
    ensures ss'[|es'|] == ss[|es|].(tracks := ss[|es|].tracks - 1)
  {
    hide IsRun;
    ss', es' := Then(ss, es, Negotiate(TakeTrack));
    ss', es' := Then(ss', es', Negotiate(LockTimeout));
    ss', es' := Then(ss', es', PushTrack);
    ss', es' := Then(ss', es', Negotiate(TakeTrack));
    ss', es' := Then(ss', es', Negotiate(LockTaken));
    ss', es' := Then(ss', es', Negotiate(NegotiationEnds));
    ss', es' := Then(ss', es', Negotiate(ReleaseLock));
  }

  /** Caller c closes the session up to where it waits for doneCh. */
  lemma ClosesUpToWaiting(ss: seq<State>, es: seq<Event>, c: nat) returns (ss': seq<State>, es': seq<Event>)
    requires |ss| == |es| + 1 && IsRun(ss, es)
    requires var s := ss[|es|]; s.registered && c in s.closers && s.closers[c] == Entered
    ensures |ss'| == |es'| + 1 && IsRun(ss', es') && ss'[0] == ss[0]
    ensures var s := ss[|es|];
      ss'[|es'|] == s.(registered := false, inCall := false, winner := Won(c), closers := s.closers[c := Waiting],
                       gaugeDecs := s.gaugeDecs + 1, closeChCloses := s.closeChCloses + 1)
  {
    hide IsRun;
    ss', es' := Then(ss, es, Advance(c));
    ss', es' := Then(ss', es', Advance(c));
    ss', es' := Then(ss', es', Advance(c));
    ss', es' := Then(ss', es', Advance(c));
    ss', es' := Then(ss', es', Advance(c));
    assert ss'[|es'|].closers == ss[|es|].closers[c := Waiting];
  }

  /** And returns once that is closed. */
  lemma ClosesFromWaiting(ss: seq<State>, es: seq<Event>, c: nat) returns (ss': seq<State>, es': seq<Event>)
    requires |ss| == |es| + 1 && IsRun(ss, es)
    requires var s := ss[|es|]; s.doneChCloses > 0 && c in s.closers && s.closers[c] == Waiting
    ensures |ss'| == |es'| + 1 && IsRun(ss', es') && ss'[0] == ss[0]
    ensures var s := ss[|es|];
      ss'[|es'|] == s.(closers := s.closers[c := Returned(true)], callbacks := s.callbacks + 1)
  {
    hide IsRun;
    ss', es' := Then(ss, es, Advance(c));
    ss', es' := Then(ss', es', Advance(c));
    assert ss'[|es'|].closers == ss[|es|].closers[c := Returned(true)];
  }

  lemma Settles(s: State, c: nat)
    requires s.closers.Keys == {c} && s.closers[c] == Returned(true) && s.negotiator == Ended && !s.ice.IceRunning?
    ensures Settled(s) && s.closers == map[c := Returned(true)]
  {
  }

  /** A session that serves tracks and is closed while more are queued. */
  lemma WholeLife(s: State, joined: nat) returns (ss: seq<State>, es: seq<Event>)
    requires Initial(s) && 0 < joined <= TracksChSize
    ensures |ss| == |es| + 1 && IsRun(ss, es) && ss[0] == s && Settled(ss[|es|])
    ensures ss[|es|].ice == IceDone && ss[|es|].closers == map[0 := Returned(true)] && ss[|es|].callbacks == 1
  {
    ss, es := Opens(s, joined);
    ss, es := ServesTwo(ss, es);
    hide IsRun;
    ss, es := Then(ss, es, Enter(0));
    ss, es := ClosesUpToWaiting(ss, es, 0);
    ss, es := Then(ss, es, Negotiate(StopServing));
    ss, es := Then(ss, es, StopIce);
    ss, es := Then(ss, es, Negotiate(JoinedIce));
    ss, es := Then(ss, es, Negotiate(RunDeferred));
    ss, es := ClosesFromWaiting(ss, es, 0);
    hide Can, Do, Settled;
    Settles(ss[|es|], 0);
  }

  lemma Fails(s: State, answered: bool) returns (ss: seq<State>, es: seq<Event>)
    requires Initial(s)
    ensures |ss| == |es| + 1 && IsRun(ss, es) && ss[0] == s && ss[|es|] == s.(negotiator := Failed)
    ensures es != [] && es[|es| - 1] == Negotiate(if answered then AnswerFails else OfferTimeout)
  {
    ss, es := [s], [];
    assert IsRun(ss, es);
    hide IsRun;
    ss, es := Then(ss, es, Negotiate(Spawn));
    if answered {
      ss, es := Then(ss, es, Negotiate(TakeFirstOffer));
      ss, es := Then(ss, es, Negotiate(AnswerFails));
    } else {
      ss, es := Then(ss, es, Negotiate(OfferTimeout));
    }
  }

  /** A session whose first offer cannot be answered, or does not come, closes itself. */
  lemma FailedLife(s: State, answered: bool) returns (ss: seq<State>, es: seq<Event>)
    requires Initial(s)
    ensures |ss| == |es| + 1 && IsRun(ss, es) && ss[0] == s && Settled(ss[|es|])
    ensures ss[|es|].ice == IceOff && ss[|es|].closers == map[0 := Returned(true)] && ss[|es|].callbacks == 1
  {
    ss, es := Fails(s, answered);
    hide IsRun;
    ss, es := Then(ss, es, Negotiate(CloseDoneFirst(0)));
    ss, es := ClosesUpToWaiting(ss, es, 0);
    ss, es := ClosesFromWaiting(ss, es, 0);
    ss, es := Then(ss, es, Negotiate(OwnCloseReturns));
    ss, es := Then(ss, es, Negotiate(RunDeferred));
    hide Can, Do, Settled;
    Settles(ss[|es|], 0);
  }
}
