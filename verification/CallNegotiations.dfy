/** What one round of the track goroutine comes to for the receiver: the track attached, detached
    or left alone, and the gauge in step with it. */
module CallNegotiations {
  import opened CallModel
  import opened CallSessions
  import opened CallInvariants
  import opened CallRuns
  import opened CallDeparture
  import opened CallPublications
  import opened Wrappers

  /** Taking an action takes the oldest one, and nothing else changes. */
  lemma Taken(s: Session, lost: bool, outcome: Outcome)
    requires s.worker.Idle? && s.queue != []
    ensures var s' := Work(s, lost, outcome);
      s'.worker == Holding(s.queue[0]) && [s.queue[0]] + s'.queue == s.queue && s' == s.(queue := s'.queue, worker := s'.worker)
  {
  }

  /** An action whose lock timed out leaves no trace. */
  lemma Lost(s: Session, outcome: Outcome)
    requires s.worker.Holding?
    ensures Work(s, true, outcome) == s.(worker := Idle)
  {
  }

  /** An add is refused when the track is carried already, or is a second screen; otherwise the
      track is attached to a new sender and counted, and the goroutine waits for the answer. */
  lemma AddStarted(s: Session, t: Track, outcome: Outcome)
    requires s.worker == Holding(Add(t))
    ensures var s' := Work(s, false, outcome);
      if Carries(s, t) || (t.pub.kind == Screen && s.screenSender.Some?) then s' == s.(worker := Idle)
      else
        && Carries(s', t) && s'.worker == Adding(t, |s.senders|) && s'.open == s.open + 1
        && |s'.senders| == |s.senders| + 1 && s'.senders[|s.senders|] == Some(t)
        && (forall i :: 0 <= i < |s.senders| ==> s'.senders[i] == s.senders[i])
        && s'.rx == s.rx && s'.queue == s.queue && s'.screenSender == s.screenSender && s'.offered == s.offered
  {
  }

  /** A remove detaches the track it names, and counts it off, exactly when it is carried. */
  lemma RemoveStarted(s: Session, target: Option<Track>, outcome: Outcome)
    requires LiveOk(s) && s.worker == Holding(Remove(target))
    ensures var s' := Work(s, false, outcome);
      if target.None? || !Carries(s, target.value) then s' == s.(worker := Idle)
      else
        && !Carries(s', target.value) && target.value !in s'.rx && s'.open == s.open - 1 && s'.worker.Idle?
        && s'.rx == s.rx - {target.value}
        && |s'.senders| == |s.senders|
        && (forall i :: 0 <= i < |s.senders| && s.senders[i] != target ==> s'.senders[i] == s.senders[i])
        && s'.queue == s.queue && s'.offered == s.offered
        && (s.screenSender.Some? && s.senders[s.screenSender.value] == target ==> s'.screenSender == None)
        && (s.screenSender.Some? && s.senders[s.screenSender.value] != target ==> s'.screenSender == s.screenSender)
  {
    hide AudioOnce, Counted, Fresh;
    if target.Some? && Carries(s, target.value) {
      var i := FindSender(s.senders, target.value);
      assert i < |s.senders|;
      assert Some(target.value) == target;
    }
  }

  /** A failed add detaches the track and counts it off; an answered one makes it a received
      track, and the screen sender if it is a screen. */
  lemma AddFinished(s: Session, lost: bool, outcome: Outcome)
    requires LiveOk(s) && s.worker.Adding? && outcome != Stopped
    ensures var t, slot, s' := s.worker.track, s.worker.slot, Work(s, lost, outcome);
      && s'.worker.Idle? && s'.queue == s.queue && s'.offered == s.offered && |s'.senders| == |s.senders|
      && (forall i :: 0 <= i < |s.senders| && i != slot ==> s'.senders[i] == s.senders[i])
      && (outcome == Failed ==>
            && !Carries(s', t) && t !in s'.rx && s'.rx == s.rx - {t} && s'.open == s.open - 1
            && s'.screenSender == s.screenSender)
      && (outcome == Answered ==>
            && t in s'.rx && s'.rx == s.rx + {t} && s'.open == s.open && s'.senders == s.senders
            && s'.screenSender == if t.pub.kind == Screen then Some(slot) else s.screenSender)
  {
    hide AudioOnce, Counted, Fresh, Audio;
  }

  /** An add that the close of its session cuts short leaves its increment behind: no sender is
      attached any more, the track is not received, and one increment is left over. */
  lemma AddStopped(s: Session, lost: bool)
    requires LiveOk(s) && s.worker.Adding?
    ensures var t, s' := s.worker.track, Work(Departed(s), lost, Stopped);
      && s'.worker.Idle? && t !in s'.rx && s'.rx == s.rx && s'.queue == s.queue
      && s'.open == s.open - |s.rx| == 1 && Attached(s') == 0
  {
    hide AudioOnce, Fresh;
    NoneCount(Departed(s).senders);
  }

  // ---------------------------------------------------------------- over runs

  /** Nothing of a negotiation of `s` has changed. */
  predicate SameNegotiation(s: Session, s': Session) { s'.worker == s.worker && s'.open == s.open && s'.rx == s.rx }

  lemma QueueingNegotiates(s: Session, a: Action, t: Track)
    ensures SameNegotiation(s, Enqueue(s, a)) && SameNegotiation(s, Offer(s, t))
  {
  }

  lemma ReceiveNegotiates(p: Session, r: Session, pub: Pub, expected: Level, copy: nat)
    ensures SameNegotiation(r, Receive(p, r, pub, expected, copy))
  {
    QueueingNegotiates(r, Add(Track(pub, copy)), Track(pub, copy));
    hide Offer, Accepts;
  }

  lemma DepartureNegotiates(s: Session, pubs: set<Pub>, sharer: bool)
    ensures SameNegotiation(s, AfterDeparture(s, pubs, sharer))
  {
    var s0 := if sharer then s.(screenSender := None) else s;
    SweepExact(s0, pubs, |s0.senders|);
    hide Sweep;
  }

  lemma InitNegotiates(c: State, id: Id, order: seq<Id>, copies: Id -> nat, r: Id)
    requires id in c.sessions && r in c.sessions && forall k :: 0 <= k < |order| ==> order[k] in c.sessions
    ensures var c' := InitTracks(c, id, order, copies);
      r in c'.sessions && SameNegotiation(c.sessions[r], c'.sessions[r])
  {
    OfferAllOffers(c.sessions[id], JoinTracks(c, c.sessions[id], order, copies));
    hide OfferAll, JoinTracks;
  }

  lemma PublishNegotiates(c: State, id: Id, pub: Pub, expected: Id -> Level, copies: Id -> nat, r: Id)
    requires id in c.sessions && r in c.sessions
    ensures var c' := Publish(c, id, pub, expected, copies);
      r in c'.sessions && SameNegotiation(c.sessions[r], c'.sessions[r])
  {
    PublishedSession(c, id, pub, expected, copies, r);
    WithPubFields(c.sessions[id], pub);
    ReceiveNegotiates(c.sessions[id], c.sessions[r], pub, expected(r), copies(r));
    hide Publish, WithPub, Receive;
  }

  lemma LatePublishNegotiates(c: State, id: Id, pub: Pub, expected: Id -> Level, copies: Id -> nat, r: Id)
    requires id in c.gone && id !in c.sessions && r in c.sessions
    ensures var c' := LatePublish(c, id, pub, expected, copies);
      r in c'.sessions && SameNegotiation(c.sessions[r], c'.sessions[r])
  {
    ReceiveNegotiates(c.gone[id], c.sessions[r], pub, expected(r), copies(r));
    hide WithPub, Receive;
  }

  lemma ScreenOffNegotiates(c: State, id: Id, r: Id)
    requires r in c.sessions
    ensures var c' := ScreenOff(c, id);
      r in c'.sessions && SameNegotiation(c.sessions[r], c'.sessions[r])
  {
  }

  lemma SwitchNegotiates(c: State, id: Id, pub: Pub, copy: nat, r: Id)
    requires r in c.sessions
    ensures CanSwitch(c, id, pub) ==> var c' := SwitchOutOf(c, id, pub, copy);
      r in c'.sessions && SameNegotiation(c.sessions[r], c'.sessions[r])
    ensures CanSwitchIn(c, id) ==> var c' := SwitchInOf(c, id);
      r in c'.sessions && SameNegotiation(c.sessions[r], c'.sessions[r])
  {
    hide OnScreen;
  }

  lemma CloseNegotiates(c: State, id: Id, r: Id)
    requires id in c.sessions && r in c.sessions && r != id
    ensures var c' := Close(c, id);
      r in c'.sessions && SameNegotiation(c.sessions[r], c'.sessions[r])
  {
    DepartureNegotiates(c.sessions[r], Published(c.sessions[id]), c.screenSession == Some(id));
    hide AfterDeparture, Published, Departed;
  }

  lemma WorkElsewhere(c: State, id: Id, lost: bool, outcome: Outcome, r: Id)
    requires CanWorkOf(c, id, outcome) && r in c.sessions && r != id
    ensures var c' := WorkOf(c, id, lost, outcome);
      r in c'.sessions && c'.sessions[r] == c.sessions[r]
  {
    hide Work;
  }

  /** Only its own goroutine moves a session's negotiation. */
  lemma OthersLeaveNegotiation(c: State, e: Event, c': State, r: Id)
    requires Inv(c) && Step(c, e, c') && r in c.sessions && r in c'.sessions && !(e.EvWork? && e.id == r)
    ensures SameNegotiation(c.sessions[r], c'.sessions[r])
  {
    hide Inv, SameNegotiation, Join, InitTracks, Publish, LateInit, LatePublish, WorkOf, ScreenOff, SwitchOutOf,
         SwitchInOf, Close, CanWorkOf, CanSwitch, CanSwitchIn;
    Itself(c.sessions[r]);
    match e
    case EvJoin(id, av1) => JoinLeaves(c, id, av1, r);
    case EvInit(id, order, copies) => InitNegotiates(c, id, order, copies, r);
    case EvPublish(id, pub, expected, copies) => PublishNegotiates(c, id, pub, expected, copies, r);
    case EvLateInit(id, order, copies) => LateInitSessions(c, id, order, copies);
    case EvLatePublish(id, pub, expected, copies) =>
      GoneIsOut(c, id);
      LatePublishNegotiates(c, id, pub, expected, copies, r);
    case EvWork(id, lost, outcome) => WorkElsewhere(c, id, lost, outcome, r);
    case EvScreenOn(id) =>
    case EvLateScreenOn(id) =>
    case EvScreenOff(id) => ScreenOffNegotiates(c, id, r);
    case EvSwitchOut(id, pub, copy) => SwitchNegotiates(c, id, pub, copy, r);
    case EvSwitchIn(id) => SwitchNegotiates(c, id, Pub(id, Voice, Opus, None, 0), 0, r);
    case EvClose(id) =>
      CloseRemoves(c, id);
      CloseNegotiates(c, id, r);
  }

  lemma Itself(s: Session)
    ensures SameNegotiation(s, s)
  {
  }

  /** Between i and j the goroutine of `r`, never out of the call, takes no step. */
  ghost predicate Blocked(cs: seq<State>, es: seq<Event>, i: nat, j: nat, r: Id)
    requires IsRun(cs, es)
  {
    && i <= j <= |es|
    && (forall m :: i <= m <= j ==> r in cs[m].sessions)
    && (forall m :: i <= m < j ==> !(es[m].EvWork? && es[m].id == r))
  }

  lemma BlockedFrom(cs: seq<State>, es: seq<Event>, i: nat, j: nat, r: Id)
    requires IsRun(cs, es) && Blocked(cs, es, i, j, r)
    ensures i <= j <= |es| && |cs| == |es| + 1 && r in cs[i].sessions && r in cs[j].sessions
    ensures i < j ==>
      && Blocked(cs, es, i, j - 1, r) && r in cs[j - 1].sessions
      && Step(cs[j - 1], es[j - 1], cs[j]) && !(es[j - 1].EvWork? && es[j - 1].id == r)
  {
    hide Step;
  }

  lemma SameTwice(s: Session, s': Session, s'': Session)
    requires SameNegotiation(s, s') && SameNegotiation(s', s'')
    ensures SameNegotiation(s, s'')
  {
  }

  lemma {:induction false} BlockedStays(cs: seq<State>, es: seq<Event>, i: nat, j: nat, r: Id)
    requires IsRun(cs, es) && Initial(cs[0]) && Blocked(cs, es, i, j, r)
    ensures i <= j <= |es| && |cs| == |es| + 1 && r in cs[i].sessions && r in cs[j].sessions
    ensures SameNegotiation(cs[i].sessions[r], cs[j].sessions[r])
    decreases j
  {
    hide *;
    BlockedFrom(cs, es, i, j, r);
    if i < j {
      BlockedStays(cs, es, i, j - 1, r);
      RunsKeepInv(cs, es, j - 1);
      OthersLeaveNegotiation(cs[j - 1], es[j - 1], cs[j], r);
      SameTwice(cs[i].sessions[r], cs[j - 1].sessions[r], cs[j].sessions[r]);
    } else {
      Itself(cs[i].sessions[r]);
    }
  }

  lemma OwnStep(c: State, r: Id, lost: bool, outcome: Outcome, c': State)
    requires Step(c, EvWork(r, lost, outcome), c') && r in c.sessions
    ensures CanWork(c.sessions[r]) && outcome != Stopped
    ensures r in c'.sessions && c'.sessions[r] == Work(c.sessions[r], lost, outcome)
    ensures c'.gauge == c.gauge + c'.sessions[r].open - c.sessions[r].open
  {
    hide Work, CanWork;
  }

  /** An add that fails, whatever happens in the call while it waits for its answer, leaves
      everything as it was before it began: the track neither attached nor received, and the
      session's share of the gauge the same. */
  lemma FailedAddLeavesNothing(cs: seq<State>, es: seq<Event>, i: nat, j: nat, r: Id, t: Track, outcome: Outcome, lost: bool)
    requires IsRun(cs, es) && Initial(cs[0]) && i < j < |es| && Blocked(cs, es, i + 1, j, r)
    requires r in cs[i].sessions && cs[i].sessions[r].worker == Holding(Add(t)) && es[i] == EvWork(r, false, outcome)
    requires cs[i + 1].sessions[r].worker.Adding? && es[j] == EvWork(r, lost, Failed)
    ensures r in cs[j + 1].sessions
    ensures var s, s' := cs[i].sessions[r], cs[j + 1].sessions[r];
      !Carries(s', t) && t !in s'.rx && s'.rx == s.rx && s'.open == s.open && s'.worker.Idle?
    ensures cs[i + 1].gauge == cs[i].gauge + 1 && cs[j + 1].gauge == cs[j].gauge - 1
  {
    assert Step(cs[i], es[i], cs[i + 1]) && Step(cs[j], es[j], cs[j + 1]);
    BlockedStays(cs, es, i + 1, j, r);
    RunsKeepInv(cs, es, j);
    LiveOf(cs[j], r);
    RunsKeepInv(cs, es, i);
    LiveOf(cs[i], r);
    hide Initial, Inv, Blocked, IsRun, Step;
    OwnStep(cs[i], r, false, outcome, cs[i + 1]);
    OwnStep(cs[j], r, lost, Failed, cs[j + 1]);
    hide Work, LiveOk, CanWork, Carries;
    AddStarted(cs[i].sessions[r], t, outcome);
    AddFinished(cs[j].sessions[r], lost, Failed);
    NotReceivedYet(cs[i].sessions[r], t, cs[j].sessions[r]);
  }

  lemma NotReceivedYet(s: Session, t: Track, s': Session)
    requires LiveOk(s') && s'.worker.Adding? && s'.worker.track == t && s'.rx == s.rx
    ensures s.rx - {t} == s.rx
  {
    hide AudioOnce, Counted, Fresh;
  }
}
