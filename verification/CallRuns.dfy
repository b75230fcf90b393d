/** The main results about a call, over all of its runs. */
module CallRuns {
  import opened CallModel
  import opened CallSessions
  import opened CallInvariants
  import opened Wrappers

  lemma JoinKeeps(c: State, id: Id, av1: bool)
    requires Inv(c) && id !in c.gone
    ensures Core(Join(c, id, av1))
  {
    hide LedgersOk, GaugeOk, OffersOk, GoneSlotsOk, OwnerOk, Delivered, Join;
    JoinLedger(c, id, av1);
    JoinDelivers(c, id, av1);
    JoinGone(c, id, av1);
  }

  lemma InitKeeps(c: State, id: Id, order: seq<Id>, copies: Id -> nat)
    requires Inv(c) && id in c.sessions && !c.sessions[id].initDone && IsOrder(c, id, order)
    ensures Core(InitTracks(c, id, order, copies))
  {
    assert LiveOk(c.sessions[id]);
    hide LedgersOk, LiveOk, GaugeOk, OffersOk, GoneSlotsOk, OwnerOk, Delivered, InitTracks;
    InitLedger(c, id, order, copies);
    InitDelivers(c, id, order, copies);
    GoneSlotsStay(c, InitTracks(c, id, order, copies));
  }

  lemma PublishKeeps(c: State, id: Id, pub: Pub, expected: Id -> Level, copies: Id -> nat)
    requires Inv(c) && id in c.sessions && pub.owner == id && pub !in c.used
    ensures Core(Publish(c, id, pub, expected, copies))
  {
    hide LedgersOk, GaugeOk, OffersOk, GoneSlotsOk, OwnerOk, Delivered, Publish;
    PublishLedger(c, id, pub, expected, copies);
    PublishDelivered(c, id, pub, expected, copies);
    PublishOffersOk(c, id, pub, expected, copies);
    PublishGone(c, id, pub, expected, copies);
  }

  lemma LateInitKeeps(c: State, id: Id, order: seq<Id>, copies: Id -> nat)
    requires Inv(c) && id in c.gone && IsOrder(c, id, order)
    ensures Core(LateInit(c, id, order, copies))
  {
    hide LedgersOk, GaugeOk, OffersOk, GoneSlotsOk, OwnerOk, Delivered, JoinTracks, OfferAll;
    LateInitLedger(c, id, order, copies);
    LateInitGone(c, id, order, copies);
    SameSessionsDelivered(c, LateInit(c, id, order, copies));
  }

  lemma SameSessionsDelivered(c: State, c': State)
    requires OffersOk(c) && Delivered(c) && c'.sessions == c.sessions && c'.used == c.used
    ensures OffersOk(c') && Delivered(c')
  {
    hide SlotsOk, Current;
  }

  lemma LatePublishKeeps(c: State, id: Id, pub: Pub, expected: Id -> Level, copies: Id -> nat)
    requires Inv(c) && id in c.gone && pub.owner == id && pub !in c.used
    ensures Core(LatePublish(c, id, pub, expected, copies))
  {
    assert id !in c.sessions;
    hide LedgersOk, GaugeOk, OffersOk, GoneSlotsOk, OwnerOk, Delivered, LatePublish;
    LatePublishLedger(c, id, pub, expected, copies);
    LatePublishDelivered(c, id, pub, expected, copies);
    LatePublishOffersOk(c, id, pub, expected, copies);
    LatePublishGone(c, id, pub, expected, copies);
  }

  lemma WorkKeeps(c: State, id: Id, lost: bool, outcome: Outcome)
    requires Inv(c) && CanWorkOf(c, id, outcome)
    ensures Core(WorkOf(c, id, lost, outcome))
  {
    hide LedgersOk, GaugeOk, OffersOk, GoneSlotsOk, OwnerOk, Delivered, WorkOf, CanWorkOf;
    WorkLedger(c, id, lost, outcome);
    WorkDelivers(c, id, lost, outcome);
    WorkGone(c, id, lost, outcome);
  }

  lemma ScreenOnKeeps(c: State, id: Id)
    requires Inv(c) && IsMember(c, id)
    ensures Core(ScreenOn(c, id))
  {
    hide LiveOk, GoneOk, SlotsOk, Current, Opens, Sum;
  }

  lemma ScreenOffKeeps(c: State, id: Id)
    requires Inv(c)
    ensures Core(ScreenOff(c, id))
  {
    hide LedgersOk, GaugeOk, OffersOk, GoneSlotsOk, OwnerOk, Delivered, ScreenOff;
    ScreenOffLedger(c, id);
    ScreenOffDelivers(c, id);
    ScreenOffGone(c, id);
  }

  lemma SwitchOutKeeps(c: State, id: Id, pub: Pub, copy: nat)
    requires Inv(c) && CanSwitch(c, id, pub)
    ensures Core(SwitchOutOf(c, id, pub, copy))
  {
    hide LedgersOk, GaugeOk, OffersOk, GoneSlotsOk, OwnerOk, Delivered, SwitchOutOf, CanSwitch;
    SwitchOutLedger(c, id, pub, copy);
    SwitchOutDelivers(c, id, pub, copy);
    SwitchOutGone(c, id, pub, copy);
  }

  lemma SwitchInKeeps(c: State, id: Id)
    requires Inv(c) && CanSwitchIn(c, id)
    ensures Core(SwitchInOf(c, id))
  {
    hide LedgersOk, GaugeOk, OffersOk, GoneSlotsOk, OwnerOk, Delivered, SwitchInOf, CanSwitchIn;
    SwitchInLedger(c, id);
    SwitchInDelivers(c, id);
    SwitchInGone(c, id);
  }

  lemma CloseKeeps(c: State, id: Id)
    requires Inv(c) && id in c.sessions
    ensures Core(Close(c, id))
  {
    hide LedgersOk, GaugeOk, OffersOk, GoneSlotsOk, OwnerOk, Delivered, Close;
    CloseLedger(c, id);
    CloseDelivers(c, id);
    CloseGone(c, id);
  }

  lemma StepKeepsCore(c: State, e: Event, c': State)
    requires Inv(c) && Step(c, e, c')
    ensures Core(c')
  {
    hide Inv, Core, Join, InitTracks, Publish, LateInit, LatePublish, WorkOf, ScreenOn, ScreenOff, SwitchOutOf, SwitchInOf,
         Close, CanWorkOf, CanSwitch, CanSwitchIn, IsOrder;
    match e
    case EvJoin(id, av1) => JoinKeeps(c, id, av1);
    case EvInit(id, order, copies) => InitKeeps(c, id, order, copies);
    case EvPublish(id, pub, expected, copies) => PublishKeeps(c, id, pub, expected, copies);
    case EvLateInit(id, order, copies) =>
      assert IsOrder(c, id, order);
      LateInitKeeps(c, id, order, copies);
    case EvLatePublish(id, pub, expected, copies) => LatePublishKeeps(c, id, pub, expected, copies);
    case EvWork(id, lost, outcome) => WorkKeeps(c, id, lost, outcome);
    case EvScreenOn(id) => ScreenOnKeeps(c, id);
    case EvLateScreenOn(id) => ScreenOnKeeps(c, id);
    case EvScreenOff(id) => ScreenOffKeeps(c, id);
    case EvSwitchOut(id, pub, copy) => SwitchOutKeeps(c, id, pub, copy);
    case EvSwitchIn(id) => SwitchInKeeps(c, id);
    case EvClose(id) => CloseKeeps(c, id);
  }

  lemma SwitchingStep(c: State, e: Event, c': State)
    requires Step(c, e, c')
    ensures c.used <= c'.used
    ensures forall id :: id in c'.switching ==>
      || (id in c.switching && c'.switching[id] == c.switching[id])
      || (e.EvSwitchOut? && c'.switching[id].pub == e.pub && CanSwitch(c, e.id, e.pub))
  {
    hide Work, OfferAll, JoinTracks, Receive, WithPub, Offer, SwitchOut, NewSession, DropScreen, WithoutScreen,
         AfterDeparture, Published, Departed, IsOrder, CanWork, OnScreen;
  }

  lemma SwitchesStay(c: State, e: Event, c': State)
    requires SwitchesOk(c) && c.used <= c'.used
    requires forall id :: id in c'.switching ==>
      || (id in c.switching && c'.switching[id] == c.switching[id])
      || (e.EvSwitchOut? && c'.switching[id].pub == e.pub && CanSwitch(c, e.id, e.pub))
    requires e.EvSwitchOut? && CanSwitch(c, e.id, e.pub) ==> IsLayer(e.pub) && e.pub in c.used
    ensures SwitchesOk(c')
  {
    hide CanSwitch, IsLayer;
  }

  lemma SwitchesKeep(c: State, e: Event, c': State)
    requires OffersOk(c) && GoneSlotsOk(c) && SwitchesOk(c) && Step(c, e, c')
    ensures SwitchesOk(c')
  {
    hide *;
    SwitchingStep(c, e, c');
    if e.EvSwitchOut? && CanSwitch(c, e.id, e.pub) {
      SwitchTarget(c, e.id, e.pub);
    }
    SwitchesStay(c, e, c');
  }

  lemma StepKeeps(c: State, e: Event, c': State)
    requires Inv(c) && Step(c, e, c')
    ensures Inv(c')
  {
    hide LedgersOk, GaugeOk, OffersOk, GoneSlotsOk, OwnerOk, Delivered, Step, SwitchesOk;
    StepKeepsCore(c, e, c');
    SwitchesKeep(c, e, c');
  }

  lemma InitialInv(c: State)
    requires Initial(c)
    ensures Inv(c)
  {
    assert Opens(c.sessions) == map[] && Opens(c.gone) == map[];
  }

  lemma {:induction false} RunsKeepInvFrom(cs: seq<State>, es: seq<Event>, i: nat)
    requires IsRun(cs, es) && Inv(cs[0]) && i <= |es|
    ensures Inv(cs[i])
  {
    hide Inv, Step;
    if i > 0 {
      RunsKeepInvFrom(cs, es, i - 1);
      StepKeeps(cs[i - 1], es[i - 1], cs[i]);
    }
  }

  lemma RunsKeepInv(cs: seq<State>, es: seq<Event>, i: nat)
    requires IsRun(cs, es) && Initial(cs[0]) && i <= |es|
    ensures Inv(cs[i])
  {
    hide Inv, Initial, Step;
    InitialInv(cs[0]);
    RunsKeepInvFrom(cs, es, i);
  }

  /** Exactly-once fan-out: at every point of every run, a session whose tracks are
      initialised has been offered the current voice, screen-audio and plain video track of
      every other session in the call exactly once, and one not initialised yet, nothing. */
  lemma ExactlyOnce(cs: seq<State>, es: seq<Event>, i: nat, p: Id, r: Id, pub: Pub)
    requires IsRun(cs, es) && Initial(cs[0]) && i <= |es|
    requires p in cs[i].sessions && r in cs[i].sessions && p != r
    ensures !cs[i].sessions[r].initDone ==> cs[i].sessions[r].offered[pub] == 0
    ensures (cs[i].sessions[r].initDone && Current(cs[i].sessions[p], cs[i].sessions[r], pub))
            ==> cs[i].sessions[r].offered[pub] == 1
  {
    RunsKeepInv(cs, es, i);
    assert LiveOk(cs[i].sessions[r]);
  }

  /** No audio track is ever added twice by a receiver, current or not. */
  lemma AudioAddedOnce(cs: seq<State>, es: seq<Event>, i: nat, r: Id, t: Track)
    requires IsRun(cs, es) && Initial(cs[0]) && i <= |es| && r in cs[i].sessions && Audio(t)
    ensures cs[i].sessions[r].offered[t.pub] <= 1 && Spent(cs[i].sessions[r], t) <= 1
  {
    RunsKeepInv(cs, es, i);
    var s := cs[i].sessions[r];
    assert LiveOk(s);
    assert Spent(s, t) <= s.offered[t.pub] <= 1;
  }

  // ------------------------------------------------------- the out-track gauge

  /** What the live sessions account for: received tracks and negotiations in flight. */
  function Held(m: map<Id, Session>): map<Id, int> {
    map k | k in m :: |m[k].rx| + Bit(m[k].worker.Adding?)
  }

  lemma LiveShares(c: State)
    requires LedgersOk(c)
    ensures Opens(c.sessions) == Held(c.sessions)
    ensures forall r :: r in c.sessions ==> c.sessions[r].open >= 0
  {
    hide GoneOk, SendersOk, AudioOnce;
    forall r | r in c.sessions ensures c.sessions[r].open == |c.sessions[r].rx| + Bit(c.sessions[r].worker.Adding?) {
      assert LiveOk(c.sessions[r]);
    }
  }

  lemma GoneShares(c: State)
    requires LedgersOk(c)
    ensures forall r :: r in c.gone ==> c.gone[r].open >= 0
  {
    hide LiveOk;
    forall r | r in c.gone ensures c.gone[r].open >= 0 {
      AttachedNonNegative(c.gone[r]);
    }
  }

  /** The ledger on every run: the gauge is what the live sessions receive, plus what their
      negotiations in flight count, plus a never negative rest left open by sessions that
      have left. Each share being non-negative, no decrement lacks its increment. */
  lemma GaugeLedger(cs: seq<State>, es: seq<Event>, i: nat)
    requires IsRun(cs, es) && Initial(cs[0]) && i <= |es|
    ensures cs[i].gauge == Sum(Held(cs[i].sessions)) + Sum(Opens(cs[i].gone))
    ensures forall r :: r in cs[i].sessions ==> cs[i].sessions[r].open >= 0
    ensures forall r :: r in cs[i].gone ==> cs[i].gone[r].open >= 0
  {
    RunsKeepInv(cs, es, i);
    hide Initial, Step, LedgersOk, Held, Opens;
    LiveShares(cs[i]);
    GoneShares(cs[i]);
  }

  /** The session does not leave in the middle of a negotiation or negotiate after leaving. */
  predicate OrderlyStep(c: State, e: Event) {
    && (e.EvClose? && e.id in c.sessions ==> !c.sessions[e.id].worker.Adding?)
    && (e.EvWork? ==> e.id in c.sessions)
  }

  ghost predicate Orderly(cs: seq<State>, es: seq<Event>)
    requires |cs| == |es| + 1
  {
    forall i :: 0 <= i < |es| ==> OrderlyStep(cs[i], es[i])
  }

  /** Nothing is left open by the sessions that have left. */
  ghost predicate NothingLeft(c: State) { forall r :: r in c.gone ==> c.gone[r].open == 0 }

  lemma GoneUnchanged(c: State, e: Event, c': State)
    requires Step(c, e, c') && OrderlyStep(c, e) && !e.EvClose?
    ensures c'.gone.Keys == c.gone.Keys && forall r :: r in c.gone ==> c'.gone[r].open == c.gone[r].open
  {
    hide Work, OfferAll, JoinTracks, Receive, WithPub, SwitchOut, Offer, NewSession, DropScreen, WithoutScreen,
         CanSwitch, CanSwitchIn, CanWork, LatePublish, LateInit, SwitchOutOf, SwitchInOf;
    if e.EvLatePublish? {
      LatePublishOpens(c, e.id, e.pub, e.expected, e.copies);
    } else if e.EvLateInit? {
      LateInitOpens(c, e.id, e.order, e.copies);
    } else if e.EvSwitchOut? {
      SwitchOutOpens(c, e.id, e.pub, e.copy);
    } else if e.EvSwitchIn? {
      SwitchInOpens(c, e.id);
    }
  }

  lemma SwitchOutOpens(c: State, id: Id, pub: Pub, copy: nat)
    requires CanSwitch(c, id, pub)
    ensures var c' := SwitchOutOf(c, id, pub, copy);
      c'.gone.Keys == c.gone.Keys && forall r :: r in c.gone ==> c'.gone[r].open == c.gone[r].open
  {
    EnqueueFields(Member(c, id), Remove(Member(c, id).senders[Member(c, id).screenSender.value]));
    hide Enqueue, SameView;
  }

  lemma SwitchInOpens(c: State, id: Id)
    requires CanSwitchIn(c, id)
    ensures var c' := SwitchInOf(c, id);
      c'.gone.Keys == c.gone.Keys && forall r :: r in c.gone ==> c'.gone[r].open == c.gone[r].open
  {
    EnqueueFields(Member(c, id), Add(c.switching[id]));
    hide Enqueue, SameView;
  }

  lemma LatePublishOpens(c: State, id: Id, pub: Pub, expected: Id -> Level, copies: Id -> nat)
    requires id in c.gone && pub.owner == id && pub !in c.used
    ensures var c' := LatePublish(c, id, pub, expected, copies);
      c'.gone.Keys == c.gone.Keys && forall r :: r in c.gone ==> c'.gone[r].open == c.gone[r].open
  {
    hide Receive, WithPub;
    WithPubFields(c.gone[id], pub);
  }

  lemma LateInitOpens(c: State, id: Id, order: seq<Id>, copies: Id -> nat)
    requires id in c.gone && forall k :: 0 <= k < |order| ==> order[k] in c.sessions
    ensures var c' := LateInit(c, id, order, copies);
      c'.gone.Keys == c.gone.Keys && forall r :: r in c.gone ==> c'.gone[r].open == c.gone[r].open
  {
    hide OfferAll, JoinTracks;
    OfferAllOffers(c.gone[id], JoinTracks(c, c.gone[id], order, copies));
  }

  lemma IdleLeavesNothing(s: Session)
    requires LiveOk(s) && !s.worker.Adding?
    ensures Departed(s).open == 0
  {
  }

  lemma CloseLeavesNothing(c: State, id: Id)
    requires Inv(c) && id in c.sessions && !c.sessions[id].worker.Adding? && NothingLeft(c)
    ensures NothingLeft(Close(c, id))
  {
    assert LiveOk(c.sessions[id]) by { hide LiveOk, GoneOk, GaugeOk, OffersOk, GoneSlotsOk, OwnerOk, Delivered; }
    IdleLeavesNothing(c.sessions[id]);
    hide Inv, LiveOk, Staying, Published, Departed;
  }

  lemma NothingLeftStep(c: State, e: Event, c': State)
    requires Inv(c) && Step(c, e, c') && OrderlyStep(c, e) && NothingLeft(c)
    ensures NothingLeft(c')
  {
    if e.EvClose? {
      hide Inv, Close, NothingLeft;
      CloseLeavesNothing(c, e.id);
    } else {
      hide Inv, Step;
      GoneUnchanged(c, e, c');
    }
  }

  lemma {:induction false} OrderlyRuns(cs: seq<State>, es: seq<Event>, i: nat)
    requires IsRun(cs, es) && Initial(cs[0]) && Orderly(cs, es) && i <= |es|
    ensures NothingLeft(cs[i])
  {
    if i == 0 {
      hide Step, OrderlyStep;
    } else {
      hide Inv, Step, Initial, OrderlyStep, NothingLeft;
      OrderlyRuns(cs, es, i - 1);
      RunsKeepInv(cs, es, i - 1);
      NothingLeftStep(cs[i - 1], es[i - 1], cs[i]);
    }
  }

  lemma {:induction false} SumZero(m: map<Id, int>)
    requires forall k :: k in m ==> m[k] == 0
    ensures Sum(m) == 0
    decreases |m|
  {
    if m != map[] {
      var k :| k in m;
      SumRemove(m, k);
      SumZero(m - {k});
    }
  }

  function ReceivedCounts(m: map<Id, Session>): map<Id, int> { map k | k in m :: |m[k].rx| }

  /** On orderly runs the gauge is exactly the number of received tracks of the live
      sessions whenever no negotiation is in flight. */
  lemma GaugeIsExact(cs: seq<State>, es: seq<Event>, i: nat)
    requires IsRun(cs, es) && Initial(cs[0]) && Orderly(cs, es) && i <= |es|
    requires forall r :: r in cs[i].sessions ==> !cs[i].sessions[r].worker.Adding?
    ensures cs[i].gauge == Sum(ReceivedCounts(cs[i].sessions))
  {
    GaugeLedger(cs, es, i);
    OrderlyRuns(cs, es, i);
    SumZero(Opens(cs[i].gone));
    assert Held(cs[i].sessions) == ReceivedCounts(cs[i].sessions);
  }

  // ------------------------------------------------------------ screen ownership

  /** How the owner of the screen share can change in one event. */
  ghost predicate OwnerMove(c: State, e: Event, c': State) {
    || c'.screenSession == c.screenSession
    || (c.screenSession == None && (e.EvScreenOn? || e.EvLateScreenOn?) && c'.screenSession == Some(e.id))
    || (c.screenSession.Some? && c'.screenSession == None
        && (e == EvScreenOff(c.screenSession.value) || e == EvClose(c.screenSession.value)))
  }

  /** The owner is in the call, unless its screen-on was handled only after its close. */
  ghost predicate OwnerIsKnown(c: State, es: seq<Event>) {
    c.screenSession.Some? ==>
      var owner := c.screenSession.value;
      owner in c.sessions || (owner in c.gone && EvLateScreenOn(owner) in es)
  }

  /** Screen ownership over runs: who the owner can be, that ownership is never taken over and
      ends by its owner's own doing, and that when it ends no other session is left with a
      screen sender on record. */
  lemma {:induction false} ScreenOwnership(cs: seq<State>, es: seq<Event>, i: nat)
    requires IsRun(cs, es) && Initial(cs[0]) && i < |es|
    ensures OwnerIsKnown(cs[i + 1], es[..i + 1])
    ensures OwnerMove(cs[i], es[i], cs[i + 1])
    ensures var c, c' := cs[i], cs[i + 1];
      c.screenSession.Some? && c'.screenSession == None ==>
        forall r :: r in c'.sessions && r != c.screenSession.value ==> c'.sessions[r].screenSender == None
  {
    hide Inv, Initial, Step, OwnerIsKnown, OwnerMove;
    OwnerStep(cs[i], es[i], cs[i + 1]);
    if i == 0 {
      NobodyOwns(cs[0]);
    } else {
      ScreenOwnership(cs, es, i - 1);
    }
    KnownStep(cs[i], es[..i], es[i], cs[i + 1]);
    assert es[..i + 1] == es[..i] + [es[i]];
  }

  lemma NobodyOwns(c: State)
    requires Initial(c)
    ensures OwnerIsKnown(c, [])
  {
  }

  lemma KnownStep(c: State, es: seq<Event>, e: Event, c': State)
    requires OwnerIsKnown(c, es) && Step(c, e, c')
    ensures OwnerIsKnown(c', es + [e])
  {
    hide CanWork, Work, OfferAll, JoinTracks, Receive, WithPub, AfterDeparture, SwitchOut, Offer, NewSession, DropScreen,
         WithoutScreen, IsOrder, OnScreen, Published, Departed;
    assert e in es + [e] && forall x :: x in es ==> x in es + [e];
  }

  /** Some continuation ends the ownership. */
  ghost predicate OwnershipCanEnd(c: State) {
    exists cs: seq<State>, es: seq<Event> :: IsRun(cs, es) && cs[0] == c && cs[|es|].screenSession == None
  }

  /** Once somebody owns the share, that can end exactly while the owner is in the call: a
      screen-on handled after the close of its session keeps everybody else from sharing. */
  lemma OwnershipCanEndIff(c: State)
    requires Inv(c) && c.screenSession.Some?
    ensures OwnershipCanEnd(c) <==> c.screenSession.value in c.sessions
  {
    hide Inv, Step, OwnershipCanEnd;
    if c.screenSession.value in c.sessions {
      OwnerCanEnd(c);
    } else {
      OwnerHasLeft(c);
      OwnerCannotEnd(c);
    }
  }

  lemma OwnerCanEnd(c: State)
    requires c.screenSession.Some? && c.screenSession.value in c.sessions
    ensures OwnershipCanEnd(c)
  {
    hide WithoutScreen, DropScreen;
    var owner := c.screenSession.value;
    var cs, es := [c, ScreenOff(c, owner)], [EvScreenOff(owner)];
    assert Step(c, es[0], cs[1]);
    hide Step;
    assert IsRun(cs, es);
  }

  lemma OwnerCannotEnd(c: State)
    requires Inv(c) && c.screenSession.Some? && c.screenSession.value in c.gone
    ensures !OwnershipCanEnd(c)
  {
    hide Inv, Step;
    forall cs: seq<State>, es: seq<Event> | IsRun(cs, es) && cs[0] == c
      ensures cs[|es|].screenSession != None
    {
      LateOwnerStays(cs, es, c.screenSession.value, |es|);
    }
  }

  lemma OwnerHasLeft(c: State)
    requires Inv(c) && c.screenSession.Some? && c.screenSession.value !in c.sessions
    ensures c.screenSession.value in c.gone
  {
    hide LedgersOk, GaugeOk, OffersOk, GoneSlotsOk, Delivered;
  }

  lemma GoneIsOut(c: State, id: Id)
    requires Inv(c) && id in c.gone
    ensures id !in c.sessions
  {
    hide LiveOk, GoneOk, GaugeOk, OffersOk, GoneSlotsOk, OwnerOk, Delivered;
  }

  lemma {:induction false} LateOwnerStays(cs: seq<State>, es: seq<Event>, id: Id, i: nat)
    requires IsRun(cs, es) && Inv(cs[0]) && i <= |es| && id in cs[0].gone && cs[0].screenSession == Some(id)
    ensures id in cs[i].gone && cs[i].screenSession == Some(id)
  {
    hide Inv, Step;
    if i > 0 {
      LateOwnerStays(cs, es, id, i - 1);
      RunsKeepInvFrom(cs, es, i - 1);
      GoneIsOut(cs[i - 1], id);
      LateOwnerStep(cs[i - 1], es[i - 1], cs[i], id);
    }
  }

  lemma LateOwnerStep(c: State, e: Event, c': State, id: Id)
    requires Step(c, e, c') && id in c.gone && id !in c.sessions && c.screenSession == Some(id)
    ensures id in c'.gone && c'.screenSession == Some(id)
  {
    hide CanWork, Work, OfferAll, JoinTracks, Receive, WithPub, AfterDeparture, SwitchOut, Offer, NewSession, DropScreen,
         WithoutScreen, IsOrder, OnScreen, Published, Departed;
  }

  /** Such a late screen-on is possible in every call a session has left. */
  lemma LateOwnerIsReached(c: State, id: Id, av1: bool) returns (cs: seq<State>, es: seq<Event>)
    requires Initial(c)
    ensures IsRun(cs, es) && cs[0] == c
    ensures cs[|es|].screenSession == Some(id) && id !in cs[|es|].sessions
  {
    var c1 := Join(c, id, av1);
    var c2 := Close(c1, id);
    cs, es := [c, c1, c2, ScreenOn(c2, id)], [EvJoin(id, av1), EvClose(id), EvLateScreenOn(id)];
    hide NewSession, Published, Departed, AfterDeparture;
    assert Step(c, es[0], c1) && Step(c1, es[1], c2) && Step(c2, es[2], cs[3]);
  }

  lemma OwnerStep(c: State, e: Event, c': State)
    requires Step(c, e, c')
    ensures OwnerMove(c, e, c')
    ensures c.screenSession.Some? && c'.screenSession == None ==>
              forall r :: r in c'.sessions && r != c.screenSession.value ==> c'.sessions[r].screenSender == None
  {
    hide CanWork, Work, OfferAll, JoinTracks, Receive, WithPub, AfterDeparture, SwitchOut, Offer;
    if e.EvClose? {
      forall r | r in c'.sessions && c.screenSession == Some(e.id) ensures c'.sessions[r].screenSender == None {
        DepartedSharer(c.sessions[r], Published(c.sessions[e.id]));
      }
    }
  }

  lemma DepartedSharer(s: Session, pubs: set<Pub>)
    ensures AfterDeparture(s, pubs, true).screenSender == None
  {
    var s' := s.(screenSender := None);
    SweepExact(s', pubs, |s'.senders|);
  }
}
