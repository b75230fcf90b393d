/** Whether the signaling lock can be free again: the token's way back, place by place, and the
    places from which there is none. */
module SignalingProgress {
  import opened SignalingLock

  /** A step that helps the token on its way, wherever it is. */
  function Helpful(s: State): Event {
    if s.net.unlockMsgs > 0 then Locking(HandleUnlock)
    else if s.cli.offered > 0 then
      if s.net.serverAnswers > 0 then Peer(HandleAnswer)
      else if s.srv.answerer == RemoteSet then Answering(AnswerOffer)
      else if s.srv.answerer == Checked then Answering(ApplyOffer)
      else Answering(CheckOffer)
    else if s.cli.granted > 0 then Peer(MakeOffer)
    else if s.net.grants > 0 && s.cli.lockedCh.Empty? then Locking(DeliverGrant)
    else if s.net.grants > 0 || s.cli.lockedCh == Full(true) then
      if s.cli.waiting > 0 then Peer(TakeReply)
      else if s.cli.sleeping > 0 then Peer(Retry)
      else Peer(NegotiationNeeded)
    else if s.srv.worker.Awaiting? then
      if s.net.clientAnswers > 0 then Tracks(ApplyAnswer)
      else if s.cli.sig == HaveRemoteOffer then Peer(SendAnswer)
      else Peer(HandleOffer)
    else if s.srv.worker.Locked? then Tracks(GiveUpTrack)
    else if s.srv.worker.Returned? then Tracks(ResetMaking)
    else Tracks(ReleaseLock)
  }

  /** How many helpful steps the token is from home. */
  function Distance(s: State): nat {
    if s.net.unlockMsgs > 0 then 1
    else if s.cli.offered > 0 then
      if s.net.serverAnswers > 0 then 2
      else if s.srv.answerer == RemoteSet then 3
      else if s.srv.answerer == Checked then 4
      else 5
    else if s.cli.granted > 0 then 6
    else if s.cli.lockedCh == Full(true) then 7 + Bit(s.cli.waiting == 0)
    else if s.net.grants > 0 then 9 + (if s.cli.lockedCh.Empty? then 0 else 1 + Bit(s.cli.waiting == 0))
    else if s.srv.worker.Awaiting? then
      if s.net.clientAnswers > 0 then 3 else if s.cli.sig == HaveRemoteOffer then 4 else 5
    else if s.srv.worker.Locked? then 3
    else if s.srv.worker.Returned? then 2
    else 1
  }

  /** A reply was lost for good, or a grant is under way or delivered and no negotiator waits for
      it or is about to ask again. */
  predicate Doomed(s: State) {
    || Blocked(s)
    || (s.net.grants + Grants(s.cli.lockedCh) > 0 && s.cli.waiting == 0 && s.cli.sleeping == 0)
  }

  lemma HelpfulHelps(s: State)
    requires Inv(s) && s.srv.lock && !Blocked(s)
    ensures Can(s, Helpful(s)) && !Faulty(Helpful(s))
    ensures var s' := Do(s, Helpful(s));
      !Blocked(s') && (s'.srv.lock ==> Distance(s') < Distance(s))
  {
  }

  /** Where the token is not doomed, it needs no new negotiation to get home. */
  lemma HelpfulUnaided(s: State)
    requires Inv(s) && s.srv.lock && !Doomed(s) && Can(s, Helpful(s))
    ensures Helpful(s) != Peer(NegotiationNeeded) && !Doomed(Do(s, Helpful(s)))
  {
  }

  /** No event is a fault, and with `unaided` none is a new negotiation. */
  predicate Allowed(es: seq<Event>, unaided: bool) {
    Faultless(es) && (unaided ==> Peer(NegotiationNeeded) !in es)
  }

  lemma OneMoreAllowed(es: seq<Event>, unaided: bool, e: Event)
    requires Allowed(es, unaided) && !Faulty(e) && (unaided ==> e != Peer(NegotiationNeeded))
    ensures Allowed(es + [e], unaided)
  {
  }

  /** From every reachable state that is not blocked (not doomed) some continuation without a
      fault (and without a new negotiation) frees the lock. */
  lemma {:induction false} LockReturns(ss: seq<State>, es: seq<Event>, unaided: bool)
    returns (ss': seq<State>, es': seq<Event>)
    requires |ss| == |es| + 1 && IsRun(ss, es) && Inv(ss[|es|]) && Allowed(es, unaided)
    requires if unaided then !Doomed(ss[|es|]) else !Blocked(ss[|es|])
    ensures |ss'| == |es'| + 1 && IsRun(ss', es') && ss'[0] == ss[0] && Allowed(es', unaided)
    ensures !ss'[|es'|].srv.lock
    decreases if ss[|es|].srv.lock then 1 + Distance(ss[|es|]) else 0
  {
    ss', es' := ss, es;
    var s := ss[|es|];
    if s.srv.lock {
      assert !Blocked(s);
      hide Inv, IsRun, Helpful, Distance, Do, Can, Allowed, Blocked, Doomed;
      HelpfulHelps(s);
      if unaided {
        HelpfulUnaided(s);
      }
      ss', es' := Then(ss, es, Helpful(s));
      OneMoreAllowed(es, unaided, Helpful(s));
      StepKeeps(s, Helpful(s), ss'[|es'|]);
      ss', es' := LockReturns(ss', es', unaided);
    }
  }

  ghost predicate Frees(s: State, unaided: bool, ss: seq<State>, es: seq<Event>) {
    |ss| == |es| + 1 && IsRun(ss, es) && ss[0] == s && Allowed(es, unaided) && !ss[|es|].srv.lock
  }

  /** Some continuation frees the lock, without a new negotiation if `unaided`. */
  ghost predicate CanBeFree(s: State, unaided: bool) {
    exists ss: seq<State>, es: seq<Event> :: Frees(s, unaided, ss, es)
  }

  lemma {:induction false} FaultlessKeeps(ss: seq<State>, es: seq<Event>, i: nat)
    requires IsRun(ss, es) && Inv(ss[0]) && Faultless(es) && i <= |es|
    ensures Inv(ss[i])
  {
    if i > 0 {
      FaultlessKeeps(ss, es, i - 1);
      assert Step(ss[i - 1], es[i - 1], ss[i]);
      hide Inv, IsRun, Step;
      StepKeeps(ss[i - 1], es[i - 1], ss[i]);
    }
  }

  lemma DoomedStep(s: State, e: Event, s': State)
    requires Inv(s) && Doomed(s) && Step(s, e, s') && e != Peer(NegotiationNeeded)
    ensures Doomed(s')
  {
  }

  lemma DoomedIsTaken(s: State)
    requires Inv(s) && Doomed(s)
    ensures s.srv.lock
  {
  }

  lemma {:induction false} StaysDoomed(ss: seq<State>, es: seq<Event>, i: nat)
    requires IsRun(ss, es) && Inv(ss[0]) && Doomed(ss[0]) && Allowed(es, true) && i <= |es|
    ensures Inv(ss[i]) && Doomed(ss[i])
  {
    if i > 0 {
      StaysDoomed(ss, es, i - 1);
      assert Step(ss[i - 1], es[i - 1], ss[i]);
      hide Inv, IsRun, Step, Doomed;
      DoomedStep(ss[i - 1], es[i - 1], ss[i]);
      StepKeeps(ss[i - 1], es[i - 1], ss[i]);
    }
  }

  lemma NeverFrees(s: State, unaided: bool, ss: seq<State>, es: seq<Event>)
    requires Inv(s) && if unaided then Doomed(s) else Blocked(s)
    ensures !Frees(s, unaided, ss, es)
  {
    if Frees(s, unaided, ss, es) {
      if unaided {
        StaysDoomed(ss, es, |es|);
      } else {
        FaultlessKeeps(ss, es, |es|);
        StaysBlocked(ss, es, 0, |es|);
      }
      hide IsRun, Inv, Blocked;
      DoomedIsTaken(ss[|es|]);
    }
  }

  /** In every state that timely runs can reach, the lock can be free again exactly when no
      granted reply and no answer under the lock has been lost. */
  lemma CanBeFreeIff(s: State)
    requires Inv(s)
    ensures CanBeFree(s, false) <==> !Blocked(s)
  {
    FreeIff(s, false);
  }

  /** And without a new negotiation by the client, exactly when also no grant is without a
      negotiator that waits or is about to ask again: a negotiator that times out leaves its
      grant behind, under way or in the channel. */
  lemma CanBeFreeUnaidedIff(s: State)
    requires Inv(s)
    ensures CanBeFree(s, true) <==> !Doomed(s)
  {
    FreeIff(s, true);
  }

  lemma FreeIff(s: State, unaided: bool)
    requires Inv(s)
    ensures CanBeFree(s, unaided) <==> !(if unaided then Doomed(s) else Blocked(s))
  {
    hide Inv, IsRun, Doomed, Blocked;
    if if unaided then Doomed(s) else Blocked(s) {
      forall ss: seq<State>, es: seq<Event>
        ensures !Frees(s, unaided, ss, es)
      {
        NeverFrees(s, unaided, ss, es);
      }
    } else {
      OneState(s);
      var ss, es := LockReturns([s], [], unaided);
      assert Frees(s, unaided, ss, es);
    }
  }

  lemma OneState(s: State)
    ensures IsRun([s], []) && Allowed([], true)
  {
  }

  // ------------------------------------------- such states are reached

  /** The first negotiation done and the channel open, nothing else under way. */
  predicate Quiet(s: State) {
    && !s.srv.lock && s.srv.sig.Stable? && !s.srv.makingOffer && s.srv.answerer.Free?
    && s.cli.sig.Stable? && s.cli.started && s.cli.negotiated && s.cli.dcOpen && s.cli.lockedCh.Empty?
    && s.cli.waiting == 0 && s.cli.sleeping == 0 && s.lost == 0 && s.unanswered == 0
  }

  lemma FirstNegotiation(s: State) returns (ss: seq<State>, es: seq<Event>)
    requires Initial(s)
    ensures |ss| == |es| + 1 && IsRun(ss, es) && ss[0] == s && Faultless(es) && Quiet(ss[|es|])
  {
    OneState(s);
    hide IsRun, Faultless;
    ss, es := [s], [];
    ss, es := Then(ss, es, Peer(NegotiationNeeded));
    ss, es := Then(ss, es, Answering(CheckOffer));
    ss, es := Then(ss, es, Answering(ApplyOffer));
    ss, es := Then(ss, es, Answering(AnswerOffer));
    ss, es := Then(ss, es, Peer(HandleAnswer));
    ss, es := Then(ss, es, Peer(ChannelOpens));
    assert es == [Peer(NegotiationNeeded), Answering(CheckOffer), Answering(ApplyOffer), Answering(AnswerOffer),
                  Peer(HandleAnswer), Peer(ChannelOpens)];
    AllFine(es);
  }

  lemma AllFine(es: seq<Event>)
    requires forall i :: 0 <= i < |es| ==> !es[i].Tracks?
    ensures Faultless(es)
  {
  }

  /** A timely run on which a granted reply finds its channel full. */
  lemma GrantCanBeLost(s: State) returns (ss: seq<State>, es: seq<Event>)
    requires Initial(s)
    ensures TimelyRun(ss, es) && ss[0] == s && ss[|es|].lost > 0 && Blocked(ss[|es|])
  {
    ss, es := FirstNegotiation(s);
    ghost var first := es;
    hide IsRun;
    ss, es := Then(ss, es, Peer(NegotiationNeeded));
    ss, es := Then(ss, es, Locking(HandleLockReplyDropped));
    assert es == first + [Peer(NegotiationNeeded), Locking(HandleLockReplyDropped)];
  }

  /** A timely run on which an answer under the lock finds its channel full. */
  lemma AnswerCanBeLost(s: State) returns (ss: seq<State>, es: seq<Event>)
    requires Initial(s)
    ensures TimelyRun(ss, es) && ss[0] == s && ss[|es|].lost == 0 && Blocked(ss[|es|])
  {
    ss, es := FirstNegotiation(s);
    ghost var first := es;
    hide IsRun;
    ss, es := AsksForLock(ss, es);
    ss, es := Then(ss, es, Peer(TakeReply));
    ss, es := Then(ss, es, Peer(MakeOffer));
    ss, es := Then(ss, es, Answering(CheckOffer));
    ss, es := Then(ss, es, Answering(ApplyOffer));
    ss, es := Then(ss, es, Answering(AnswerDropped));
    assert es == first + [Peer(NegotiationNeeded), Locking(HandleLock), Locking(DeliverGrant), Peer(TakeReply),
                          Peer(MakeOffer), Answering(CheckOffer), Answering(ApplyOffer), Answering(AnswerDropped)];
  }

  /** A timely run on which the only negotiator times out and leaves its grant behind. */
  lemma GrantCanBeAbandoned(s: State) returns (ss: seq<State>, es: seq<Event>)
    requires Initial(s)
    ensures TimelyRun(ss, es) && ss[0] == s && Doomed(ss[|es|]) && !Blocked(ss[|es|])
  {
    ss, es := FirstNegotiation(s);
    ghost var first := es;
    hide IsRun;
    ss, es := AsksForLock(ss, es);
    ss, es := Then(ss, es, Peer(LockTimeout));
    assert es == first + [Peer(NegotiationNeeded), Locking(HandleLock), Locking(DeliverGrant), Peer(LockTimeout)];
  }
}
