/** What the departure of a session leaves behind, now and later. */
module CallDeparture {
  import opened CallModel
  import opened CallSessions
  import opened CallInvariants
  import opened CallRuns
  import opened Wrappers

  /** What a departure does to a session that stays. */
  ghost predicate CleanedUp(s: Session, s': Session, pubs: set<Pub>, sharer: bool) {
    && |s'.senders| == |s.senders|
    && (forall t: Track :: t.pub in pubs && Audio(t) ==> !Carries(s', t))
    && (forall t: Track :: t.pub in pubs && !Audio(t) && Carries(s', t)
          ==> Remove(Some(t)) in s'.queue || |s'.queue| >= TracksChSize)
    && (forall i :: 0 <= i < |s.senders| && !(s.senders[i].Some? && s.senders[i].value.pub in pubs)
          ==> s'.senders[i] == s.senders[i])
    && (sharer ==> s'.screenSender == None)
    && s'.rx == s.rx && s'.worker == s.worker && s'.open == s.open
  }

  lemma SweptIsCleanedUp(s: Session, pubs: set<Pub>, s': Session)
    requires SweptTo(s, pubs, |s.senders|, s')
    ensures CleanedUp(s, s', pubs, false)
  {
    forall t: Track | t.pub in pubs && Carries(s', t)
      ensures !Audio(t) && (Remove(Some(t)) in s'.queue || |s'.queue| >= TracksChSize)
    {
      var i :| 0 <= i < |s'.senders| && s'.senders[i] == Some(t);
    }
  }

  lemma DepartureCleans(s: Session, pubs: set<Pub>, sharer: bool)
    ensures CleanedUp(s, AfterDeparture(s, pubs, sharer), pubs, sharer)
  {
    var s0 := if sharer then s.(screenSender := None) else s;
    SweepExact(s0, pubs, |s0.senders|);
    NoPubsNoSweep(s0, |s0.senders|);
    assert AfterDeparture(s, pubs, sharer) == Sweep(s0, pubs, |s0.senders|);
    hide Sweep, AfterDeparture, Carries, Audio;
    SweptIsCleanedUp(s0, pubs, Sweep(s0, pubs, |s0.senders|));
    assert sharer ==> Sweep(s0, pubs, |s0.senders|).screenSender == None;
  }

  /** Departure cleanup, for every session `r` that stays: no sender carries an audio track
      the departed session was publishing, each video sender that does has a queued remove
      (or the queue is full), every other sender is untouched, and if the departed session
      was the sharer no screen sender is on record. */
  lemma DepartureCleansUp(c: State, id: Id, r: Id)
    requires id in c.sessions && r in c.sessions && r != id
    ensures var c' := Close(c, id);
      && id !in c'.sessions && r in c'.sessions
      && CleanedUp(c.sessions[r], c'.sessions[r], Published(c.sessions[id]), c.screenSession == Some(id))
  {
    hide CleanedUp, AfterDeparture, Published, Departed;
    DepartureCleans(c.sessions[r], Published(c.sessions[id]), c.screenSession == Some(id));
  }

  /** What the end of a screen share does to the sharer and to everybody else. */
  ghost predicate ScreenEnded(s: Session, s': Session, sharer: bool) {
    && s'.senders == s.senders && s'.rx == s.rx && s'.worker == s.worker && s'.offered == s.offered
    && s'.voice == s.voice && s'.video == s.video
    && if sharer then s'.screen == map[] && s'.screenAudio == None && s'.queue == s.queue
       else
         && s'.screenSender == None && s'.screen == s.screen && s'.screenAudio == s.screenAudio
         && (s.screenSender.Some? ==> s.screenSender.value < |s.senders|)
         && s'.queue == if s.screenSender.Some? && |s.queue| < TracksChSize
                        then s.queue + [Remove(s.senders[s.screenSender.value])] else s.queue
  }

  lemma ScreenEndsFor(s: Session)
    requires s.screenSender.Some? ==> s.screenSender.value < |s.senders|
    ensures ScreenEnded(s, WithoutScreen(s), true) && ScreenEnded(s, DropScreen(s), false)
  {
  }

  lemma SenderInRange(s: Session)
    requires LiveOk(s)
    ensures s.screenSender.Some? ==> s.screenSender.value < |s.senders|
  {
    hide AudioOnce, Counted, Fresh, Carries;
  }

  lemma LiveOf(c: State, r: Id)
    requires Inv(c) && r in c.sessions
    ensures LiveOk(c.sessions[r])
  {
    hide LiveOk, GoneOk, GaugeOk, OffersOk, GoneSlotsOk, OwnerOk, Delivered;
  }

  /** The end of a screen share, in whatever order the sessions are visited: nobody shares, the
      sharer publishes no screen any more, and every other session has the remove of the track
      its screen sender carried queued, unless its queue was full, and no sender on record. */
  lemma ScreenOffCleansUp(c: State, id: Id, r: Id)
    requires Inv(c) && c.screenSession == Some(id) && id in c.sessions && r in c.sessions
    ensures var c' := ScreenOff(c, id);
      && c'.screenSession == None && c'.sessions.Keys == c.sessions.Keys
      && ScreenEnded(c.sessions[r], c'.sessions[r], r == id)
  {
    LiveOf(c, r);
    SenderInRange(c.sessions[r]);
    ScreenEndsFor(c.sessions[r]);
    hide Inv, LiveOk, WithoutScreen, DropScreen, ScreenEnded;
  }

  lemma {:induction false} NoPubsNoSweep(s: Session, n: nat)
    requires n <= |s.senders|
    ensures Sweep(s, {}, n) == s
  {
    if n > 0 {
      NoPubsNoSweep(s, n - 1);
    }
  }

  // ------------------------------------------------- audio that may still arrive

  /** `s` neither carries `t` nor has it coming. */
  predicate Silent(s: Session, t: Track) {
    !Carries(s, t) && !IsComing(s, t)
  }

  lemma SilentEnqueue(s: Session, a: Action, t: Track)
    requires Silent(s, t) && a != Add(t)
    ensures Silent(Enqueue(s, a), t)
  {
  }

  lemma {:induction false} SilentOfferAll(s: Session, ts: seq<Track>, t: Track)
    requires Silent(s, t) && t !in ts
    ensures Silent(OfferAll(s, ts), t)
  {
    if ts != [] {
      SilentOfferAll(s, ts[..|ts| - 1], t);
      SilentEnqueue(OfferAll(s, ts[..|ts| - 1]), Add(ts[|ts| - 1]), t);
    }
  }

  lemma SilentWork(s: Session, lost: bool, outcome: Outcome, t: Track)
    requires Silent(s, t) && CanWork(s)
    ensures Silent(Work(s, lost, outcome), t)
  {
  }

  lemma SilentDeparture(s: Session, pubs: set<Pub>, wasSharer: bool, t: Track)
    requires Silent(s, t)
    ensures Silent(AfterDeparture(s, pubs, wasSharer), t)
  {
    var s0 := if wasSharer then s.(screenSender := None) else s;
    SweepExact(s0, pubs, |s0.senders|);
    var s' := AfterDeparture(s, pubs, wasSharer);
    assert forall i :: 0 <= i < |s'.senders| && s'.senders[i].Some? ==> s.senders[i] == s'.senders[i];
  }

  lemma TracksForOwner(c: State, p: Id, r: Session, copy: nat, t: Track)
    requires p in c.sessions && SlotsOk(c.used, p, c.sessions[p]) && t in TracksFor(c.sessions[p], r, copy)
    ensures t.pub.owner == p
  {
  }

  /** A joining session is only sent tracks of sessions in the call. */
  lemma {:induction false} JoinTracksOwners(c: State, r: Session, order: seq<Id>, copies: Id -> nat, t: Track)
    requires OffersOk(c) && forall k :: 0 <= k < |order| ==> order[k] in c.sessions
    requires t in JoinTracks(c, r, order, copies)
    ensures t.pub.owner in c.sessions
  {
    var p := order[|order| - 1];
    hide TracksFor, SlotsOk;
    if t in TracksFor(c.sessions[p], r, copies(p)) {
      TracksForOwner(c, p, r, copies(p), t);
    } else {
      JoinTracksOwners(c, r, order[..|order| - 1], copies, t);
    }
  }

  lemma SilentInit(c: State, id: Id, order: seq<Id>, copies: Id -> nat, r: Id, t: Track)
    requires OffersOk(c) && id in c.sessions && IsOrder(c, id, order)
    requires r in c.sessions && Silent(c.sessions[r], t) && t.pub.owner !in c.sessions
    ensures Silent(InitTracks(c, id, order, copies).sessions[r], t)
  {
    var s := c.sessions[id];
    var ts := JoinTracks(c, s, order, copies);
    if t in ts {
      JoinTracksOwners(c, s, order, copies, t);
    }
    if r == id {
      SilentOfferAll(s, ts, t);
    }
    hide OffersOk, JoinTracks, OfferAll;
    assert InitTracks(c, id, order, copies).sessions[id] == OfferAll(s, ts).(initDone := true);
  }

  lemma SilentReceive(p: Session, r: Session, pub: Pub, expected: Level, copy: nat, t: Track)
    requires Silent(r, t) && pub != t.pub
    ensures Silent(Receive(p, r, pub, expected, copy), t)
  {
    hide Accepts;
  }

  lemma SilentPublish(c: State, id: Id, pub: Pub, expected: Id -> Level, copies: Id -> nat, r: Id, t: Track)
    requires id in c.sessions && r in c.sessions && pub != t.pub && Silent(c.sessions[r], t)
    ensures Silent(Publish(c, id, pub, expected, copies).sessions[r], t)
  {
    WithPubFields(c.sessions[id], pub);
    SilentReceive(c.sessions[id], c.sessions[r], pub, expected(r), copies(r), t);
    hide Receive, WithPub;
  }

  lemma SilentLatePublish(c: State, id: Id, pub: Pub, expected: Id -> Level, copies: Id -> nat, r: Id, t: Track)
    requires id in c.gone && id !in c.sessions && r in c.sessions && pub != t.pub && Silent(c.sessions[r], t)
    ensures Silent(LatePublish(c, id, pub, expected, copies).sessions[r], t)
  {
    SilentReceive(c.gone[id], c.sessions[r], pub, expected(r), copies(r), t);
    hide Receive, WithPub;
  }

  lemma SilentScreen(s: Session, t: Track)
    requires Silent(s, t)
    ensures Silent(WithoutScreen(s), t) && Silent(DropScreen(s), t)
  {
  }

  /** No level switch is, or comes, upon `t`. */
  predicate NotShared(c: State, t: Track) {
    IsLayer(t.pub) ==> c.screenSession != Some(t.pub.owner) && t !in c.switching.Values
  }

  lemma SilentSwitchOut(c: State, id: Id, pub: Pub, copy: nat, r: Id, t: Track)
    requires CanSwitch(c, id, pub) && r in c.sessions && Silent(c.sessions[r], t)
    ensures r in SwitchOutOf(c, id, pub, copy).sessions && Silent(SwitchOutOf(c, id, pub, copy).sessions[r], t)
  {
    if r == id {
      SilentEnqueue(c.sessions[id], Remove(c.sessions[id].senders[c.sessions[id].screenSender.value]), t);
    }
    hide Silent, Enqueue;
  }

  lemma SilentSwitchIn(c: State, id: Id, r: Id, t: Track)
    requires SwitchesOk(c) && CanSwitchIn(c, id) && r in c.sessions && Silent(c.sessions[r], t) && NotShared(c, t)
    ensures r in SwitchInOf(c, id).sessions && Silent(SwitchInOf(c, id).sessions[r], t)
  {
    assert c.switching[id] in c.switching.Values;
    if r == id {
      SilentOffer(c.sessions[id], c.switching[id], t);
    }
    hide Silent, Offer;
  }

  lemma SilentOffer(s: Session, u: Track, t: Track)
    requires Silent(s, t) && u != t
    ensures Silent(Offer(s, u), t)
  {
    SilentEnqueue(s, Add(u), t);
  }

  lemma SilentJoin(c: State, id: Id, av1: bool, r: Id, t: Track)
    requires r in c.sessions && Silent(c.sessions[r], t)
    ensures r in Join(c, id, av1).sessions && Silent(Join(c, id, av1).sessions[r], t)
  {
    hide NewSession;
  }

  lemma SilentWorkOf(c: State, id: Id, lost: bool, outcome: Outcome, r: Id, t: Track)
    requires CanWorkOf(c, id, outcome) && r in c.sessions && Silent(c.sessions[r], t)
    ensures var c' := WorkOf(c, id, lost, outcome); r in c'.sessions && Silent(c'.sessions[r], t)
  {
    if id == r {
      SilentWork(c.sessions[r], lost, outcome, t);
    }
    hide Work, Silent;
  }

  lemma SilentScreenOff(c: State, id: Id, r: Id, t: Track)
    requires r in c.sessions && Silent(c.sessions[r], t)
    ensures r in ScreenOff(c, id).sessions && Silent(ScreenOff(c, id).sessions[r], t)
  {
    SilentScreen(c.sessions[r], t);
    hide Silent, WithoutScreen, DropScreen;
  }

  lemma SilentClose(c: State, id: Id, r: Id, t: Track)
    requires id in c.sessions && r in c.sessions && r != id && Silent(c.sessions[r], t)
    ensures r in Close(c, id).sessions && Silent(Close(c, id).sessions[r], t)
  {
    SilentDeparture(c.sessions[r], Published(c.sessions[id]), c.screenSession == Some(id), t);
    hide Silent, AfterDeparture, Published, Departed;
  }

  lemma CloseRemoves(c: State, id: Id)
    requires id in c.sessions
    ensures id !in Close(c, id).sessions
  {
  }

  lemma SilentStep(c: State, e: Event, c': State, r: Id, t: Track)
    requires Inv(c) && Step(c, e, c') && r in c.sessions && r in c'.sessions
    requires t.pub.owner in c.gone && t.pub in c.used && Silent(c.sessions[r], t) && NotShared(c, t)
    ensures Silent(c'.sessions[r], t)
  {
    hide LedgersOk, GaugeOk, Delivered, OffersOk, GoneSlotsOk, OwnerOk, Silent, NotShared, IsOrder,
         Join, InitTracks, Publish, LateInit, LatePublish, WorkOf, ScreenOff, SwitchOutOf, SwitchInOf, Close, CanWorkOf, CanSwitch,
         CanSwitchIn;
    GoneIsOut(c, t.pub.owner);
    match e
    case EvJoin(id, av1) => SilentJoin(c, id, av1, r, t);
    case EvInit(id, order, copies) => SilentInit(c, id, order, copies, r, t);
    case EvPublish(id, pub, expected, copies) => SilentPublish(c, id, pub, expected, copies, r, t);
    case EvLateInit(id, order, copies) => LateInitSessions(c, id, order, copies);
    case EvLatePublish(id, pub, expected, copies) =>
      GoneIsOut(c, id);
      SilentLatePublish(c, id, pub, expected, copies, r, t);
    case EvWork(id, lost, outcome) => SilentWorkOf(c, id, lost, outcome, r, t);
    case EvScreenOn(id) =>
    case EvLateScreenOn(id) =>
    case EvScreenOff(id) => SilentScreenOff(c, id, r, t);
    case EvSwitchOut(id, pub, copy) => SilentSwitchOut(c, id, pub, copy, r, t);
    case EvSwitchIn(id) => SilentSwitchIn(c, id, r, t);
    case EvClose(id) =>
      CloseRemoves(c, id);
      SilentClose(c, id, r, t);
  }

  lemma LateInitSessions(c: State, id: Id, order: seq<Id>, copies: Id -> nat)
    requires id in c.gone && IsOrder(c, id, order)
    ensures LateInit(c, id, order, copies).sessions == c.sessions
  {
    hide OfferAll, JoinTracks;
  }

  /** Publications are never unmade. */
  lemma UsedStays(c: State, e: Event, c': State)
    requires Step(c, e, c')
    ensures c.used <= c'.used
  {
    hide Work, AfterDeparture, Published, OfferAll, JoinTracks, Receive, WithPub, SwitchOut, Offer, DropScreen,
         WithoutScreen, NewSession, IsOrder, CanSwitch, CanSwitchIn, CanWork;
  }

  lemma GoneStaysGone(c: State, e: Event, c': State, id: Id)
    requires Step(c, e, c') && id in c.gone
    ensures id in c'.gone
  {
    hide Work, AfterDeparture, Published, OfferAll, JoinTracks, Receive, WithPub, SwitchOut, Offer, DropScreen,
         WithoutScreen, NewSession, IsOrder, CanSwitch, CanSwitchIn, CanWork;
  }

  /** Once the publisher of a track is gone, a receiver that is silent about the track stays so,
      whatever the publisher's goroutines still do, unless the track is a simulcast layer and
      its publisher comes to own the screen share by a late screen-on. */
  lemma {:induction false} SilenceLasts(cs: seq<State>, es: seq<Event>, j: nat, r: Id, t: Track)
    requires IsRun(cs, es) && Inv(cs[0]) && j <= |es|
    requires forall k :: 0 <= k <= j ==> r in cs[k].sessions && NotShared(cs[k], t)
    requires t.pub.owner in cs[0].gone && t.pub in cs[0].used && Silent(cs[0].sessions[r], t)
    ensures t.pub.owner in cs[j].gone && t.pub in cs[j].used && Silent(cs[j].sessions[r], t)
  {
    hide Inv, Step, Silent, NotShared;
    if j > 0 {
      SilenceLasts(cs, es, j - 1, r, t);
      RunsKeepInvFrom(cs, es, j - 1);
      GoneStaysGone(cs[j - 1], es[j - 1], cs[j], t.pub.owner);
      UsedStays(cs[j - 1], es[j - 1], cs[j]);
      SilentStep(cs[j - 1], es[j - 1], cs[j], r, t);
    }
  }

  /** Some continuation of the run has `r`, never having left, carry `t`. */
  ghost predicate CanStillCarry(c: State, r: Id, t: Track) {
    exists cs, es, j :: IsRun(cs, es) && cs[0] == c && CarriesAt(cs, r, t, j)
  }

  ghost predicate CarriesAt(cs: seq<State>, r: Id, t: Track, j: nat) {
    && j < |cs|
    && (forall k :: 0 <= k <= j ==> r in cs[k].sessions)
    && Carries(cs[j].sessions[r], t)
  }

  lemma Then(cs: seq<State>, es: seq<Event>, e: Event) returns (cs': seq<State>, es': seq<Event>)
    requires IsRun(cs, es) && Can(cs[|es|], e)
    ensures IsRun(cs', es') && es' == es + [e] && cs' == cs + [Do(cs[|es|], e)] && |cs'| == |es'| + 1
  {
    cs', es' := cs + [Do(cs[|es|], e)], es + [e];
    assert Step(cs[|es|], e, Do(cs[|es|], e));
    hide Do, Can, Step;
    forall i | 0 <= i < |es'| ensures Step(cs'[i], es'[i], cs'[i + 1]) {
      if i < |es| {
        assert Step(cs[i], es[i], cs[i + 1]);
      }
    }
  }

  /** Whether the goroutine has to lose the signaling lock to get on to `t`. */
  predicate LetsPass(s: Session, t: Track) { s.worker.Holding? && s.worker.action != Add(t) }

  /** The next step of the track goroutine of `r` on the way to an add of `t`: finish what is in
      flight, take the next action, drop what is in front, or attach `t`. */
  lemma Approach(s: Session, t: Track)
    requires LiveOk(s) && Audio(t) && !Carries(s, t) && IsComing(s, t) && CanWork(s)
    ensures var s' := Work(s, LetsPass(s, t), Answered);
      || Carries(s', t)
      || (!Carries(s', t) && IsComing(s', t)
          && 2 * |s'.queue| + Bit(!s'.worker.Idle?) < 2 * |s.queue| + Bit(!s.worker.Idle?))
  {
    hide AudioOnce, Counted, Fresh;
    match s.worker
    case Idle =>
      assert s.queue == [s.queue[0]] + s.queue[1..];
    case Holding(a) =>
      if a == Add(t) {
        assert BeginAdd(LetGo(s), t).senders[|s.senders|] == Some(t);
      }
    case Adding(_, _) =>
  }

  lemma ReadyToWork(s: Session, t: Track)
    requires LiveOk(s) && IsComing(s, t)
    ensures CanWork(s)
  {
  }

  /** Distance of the goroutine of `r` to the end of its queue. */
  function Ahead(c: State, r: Id): nat
    requires r in c.sessions
  {
    2 * |c.sessions[r].queue| + Bit(!c.sessions[r].worker.Idle?)
  }

  ghost predicate Waits(c: State, r: Id, t: Track) {
    r in c.sessions && !Carries(c.sessions[r], t) && IsComing(c.sessions[r], t)
  }

  lemma WorkOfSession(c: State, id: Id, lost: bool, outcome: Outcome)
    requires id in c.sessions && CanWork(c.sessions[id]) && outcome != Stopped
    ensures Can(c, EvWork(id, lost, outcome)) && id in Do(c, EvWork(id, lost, outcome)).sessions
    ensures Do(c, EvWork(id, lost, outcome)).sessions[id] == Work(c.sessions[id], lost, outcome)
  {
    hide Work, CanWork;
  }

  lemma ApproachStep(c: State, r: Id, t: Track) returns (e: Event)
    requires Inv(c) && Audio(t) && Waits(c, r, t)
    ensures Can(c, e) && Inv(Do(c, e)) && r in Do(c, e).sessions
    ensures Carries(Do(c, e).sessions[r], t) || (Waits(Do(c, e), r, t) && Ahead(Do(c, e), r) < Ahead(c, r))
  {
    hide Inv, LiveOk, CanWork, Work, Do, Can, LetsPass;
    var s := c.sessions[r];
    LiveOf(c, r);
    ReadyToWork(s, t);
    Approach(s, t);
    e := EvWork(r, LetsPass(s, t), Answered);
    WorkOfSession(c, r, LetsPass(s, t), Answered);
    StepKeeps(c, e, Do(c, e));
  }

  lemma {:induction false} QueuedAddArrives(cs: seq<State>, es: seq<Event>, r: Id, t: Track)
      returns (cs': seq<State>, es': seq<Event>)
    requires IsRun(cs, es) && Inv(cs[|es|]) && forall k :: 0 <= k < |cs| ==> r in cs[k].sessions
    requires Audio(t) && Waits(cs[|es|], r, t)
    ensures IsRun(cs', es') && cs'[0] == cs[0] && CarriesAt(cs', r, t, |es'|)
    decreases Ahead(cs[|es|], r)
  {
    hide Inv, Can, Do, Waits, Ahead;
    var e := ApproachStep(cs[|es|], r, t);
    cs', es' := Then(cs, es, e);
    if !Carries(cs'[|es'|].sessions[r], t) {
      cs', es' := QueuedAddArrives(cs', es', r, t);
    }
  }

  /** When the cleanup is final. A receiver that carries nothing of what a departed publisher had
      published can come to carry it after all exactly when an add was still queued, or held by the
      goroutine that waits for the signaling lock. */
  lemma DepartureIsFinalIff(c: State, r: Id, t: Track)
    requires Inv(c) && r in c.sessions && Audio(t)
    requires t.pub.owner in c.gone && t.pub in c.used && !Carries(c.sessions[r], t)
    ensures CanStillCarry(c, r, t) <==> IsComing(c.sessions[r], t)
  {
    if IsComing(c.sessions[r], t) {
      ArrivesFrom([c], [], r, t);
    } else if CanStillCarry(c, r, t) {
      var cs, es, j :| IsRun(cs, es) && cs[0] == c && CarriesAt(cs, r, t, j);
      hide Inv, Step;
      SilenceLasts(cs, es, j, r, t);
      assert false;
    }
  }

  /** What the departed session's OnTrack had not published yet is another matter: taking the
      lock after the cleanup it still reaches every initialised receiver with room in its queue. */
  lemma LatePublicationArrives(c: State, id: Id, r: Id, pub: Pub, copy: nat)
    requires Inv(c) && id in c.gone && r in c.sessions && c.sessions[r].initDone
    requires pub.owner == id && pub !in c.used && IsAudio(pub.kind) && |c.sessions[r].queue| < TracksChSize
    ensures CanStillCarry(c, r, Track(pub, copy)) && !IsComing(c.sessions[r], Track(pub, copy))
  {
    var t, e := Track(pub, copy), EvLatePublish(id, pub, _ => Low, _ => copy);
    var c' := LatePublish(c, id, pub, _ => Low, _ => copy);
    LateStep(c, id, pub, _ => Low, _ => copy);
    NotQueued(c, r, t);
    LateAdd(c, id, r, t, _ => Low, _ => copy);
    StepKeeps(c, e, c');
    assert r in c'.sessions by { hide LatePublish; }
    hide *;
    OneStepArrives(c, e, c', r, t);
  }

  lemma LateStep(c: State, id: Id, pub: Pub, expected: Id -> Level, copies: Id -> nat)
    requires Inv(c) && id in c.gone && pub.owner == id && pub !in c.used
    ensures id !in c.sessions
    ensures Step(c, EvLatePublish(id, pub, expected, copies), LatePublish(c, id, pub, expected, copies))
  {
    hide LiveOk, GoneOk, GaugeOk, OffersOk, GoneSlotsOk, OwnerOk, Delivered, LatePublish;
  }

  lemma OneStepRun(c: State, e: Event, c': State)
    requires Step(c, e, c')
    ensures IsRun([c, c'], [e])
  {
    hide Step;
  }

  lemma OneStepArrives(c: State, e: Event, c': State, r: Id, t: Track)
    requires Step(c, e, c') && Inv(c') && r in c.sessions && r in c'.sessions && Audio(t) && Waits(c', r, t)
    ensures CanStillCarry(c, r, t)
  {
    hide *;
    OneStepRun(c, e, c');
    var run := [c, c'];
    ArrivesFrom(run, [e], r, t);
  }

  lemma ArrivesFrom(cs: seq<State>, es: seq<Event>, r: Id, t: Track)
    requires |cs| == |es| + 1 && IsRun(cs, es) && Inv(cs[|es|]) && forall k :: 0 <= k < |cs| ==> r in cs[k].sessions
    requires Audio(t) && Waits(cs[|es|], r, t)
    ensures CanStillCarry(cs[0], r, t)
  {
    hide Inv, IsRun, Waits, CarriesAt;
    var cs', es' := QueuedAddArrives(cs, es, r, t);
    assert CarriesAt(cs', r, t, |es'|);
  }

  lemma UnusedUnoffered(c: State, r: Id, pub: Pub)
    requires Inv(c) && r in c.sessions && pub !in c.used
    ensures pub !in c.sessions[r].offered
  {
    hide LedgersOk, GaugeOk, OwnerOk, Delivered, SlotsOk;
  }

  lemma UnofferedUnspent(s: Session, t: Track)
    requires AudioOnce(s) && Audio(t) && t.pub !in s.offered
    ensures !IsComing(s, t) && t !in s.rx && !IsAdding(s, t)
  {
    assert Spent(s, t) <= s.offered[t.pub];
  }

  lemma UncarriedUnlessHad(s: Session, t: Track)
    requires SendersOk(s) && t !in s.rx && !IsAdding(s, t)
    ensures !Carries(s, t)
  {
  }

  /** An unused publication is neither coming nor carried. */
  lemma NotQueued(c: State, r: Id, t: Track)
    requires Inv(c) && r in c.sessions && Audio(t) && t.pub !in c.used
    ensures !IsComing(c.sessions[r], t) && !Carries(c.sessions[r], t)
  {
    LiveOf(c, r);
    UnusedUnoffered(c, r, t.pub);
    hide Inv, SendersOk, AudioOnce, Counted, Fresh, Carries, IsAdding, IsComing, Audio;
    UnofferedUnspent(c.sessions[r], t);
    UncarriedUnlessHad(c.sessions[r], t);
  }

  lemma LateAdd(c: State, id: Id, r: Id, t: Track, expected: Id -> Level, copies: Id -> nat)
    requires id in c.gone && id !in c.sessions && r in c.sessions && c.sessions[r].initDone && copies(r) == t.copy
    requires Audio(t) && |c.sessions[r].queue| < TracksChSize && !Carries(c.sessions[r], t)
    ensures Waits(LatePublish(c, id, t.pub, expected, copies), r, t)
  {
    hide WithPub;
  }

  // ------------------------------------------------- such states are reached

  /** Two sessions in the call, the second one initialised while the first published nothing. */
  ghost predicate TwoInCall(c: State, p: Id, r: Id) {
    && c.sessions.Keys == {p, r} && c.gone == map[] && c.screenSession == None && c.used == {}
    && c.sessions[p] == NewSession(false) && c.sessions[r] == NewSession(false).(initDone := true)
  }

  lemma TwoJoin(c: State, p: Id, r: Id) returns (cs: seq<State>, es: seq<Event>)
    requires Initial(c) && p != r
    ensures |cs| == |es| + 1 && IsRun(cs, es) && cs[0] == c && TwoInCall(cs[|es|], p, r)
  {
    cs, es := [c], [];
    cs, es := Then(cs, es, EvJoin(p, false));
    cs, es := Then(cs, es, EvJoin(r, false));
    var c2 := cs[|es|];
    assert c2.sessions == map[p := NewSession(false), r := NewSession(false)];
    assert c2.gone == map[] && c2.screenSession == None && c2.used == {};
    assert |cs| == |es| + 1 && IsRun(cs, es);
    hide IsRun, Initial;
    assert IsOrder(c2, r, [p]);
    NothingToJoin(c2, p, c2.sessions[r]);
    cs, es := Then(cs, es, EvInit(r, [p], _ => 0));
    assert cs[|es|] == InitTracks(c2, r, [p], _ => 0);
  }

  lemma NothingToJoin(c: State, p: Id, r: Session)
    requires p in c.sessions && c.sessions[p] == NewSession(false)
    ensures JoinTracks(c, r, [p], _ => 0) == [] && OfferAll(r, JoinTracks(c, r, [p], _ => 0)) == r
  {
    assert [p][..0] == [];
    assert JoinTracks(c, r, [p][..0], _ => 0) == [];
    assert TracksFor(c.sessions[p], r, 0) == [];
  }

  /** Runs on which a publisher leaves while a receiver has its audio queued, or holds it. */
  lemma ComingAddIsReached(c: State, p: Id, r: Id, pub: Pub, held: bool) returns (cs: seq<State>, es: seq<Event>)
    requires Initial(c) && p != r && pub.owner == p && pub.kind == Voice
    ensures IsRun(cs, es) && cs[0] == c && |cs| == |es| + 1
    ensures var t, last := Track(pub, 0), cs[|es|];
      && Inv(last) && r in last.sessions && pub.owner in last.gone && pub in last.used
      && !Carries(last.sessions[r], t) && IsComing(last.sessions[r], t) && IsHolding(last.sessions[r], t) == held
  {
    hide *;
    cs, es := TwoJoin(c, p, r);
    PublishQueues(cs[|es|], p, r, pub);
    cs, es := Then(cs, es, EvPublish(p, pub, _ => Low, _ => 0));
    if held {
      TakesIt(cs[|es|], r, Track(pub, 0));
      cs, es := Then(cs, es, EvWork(r, false, Answered));
    }
    CloseKeepsComing(cs[|es|], p, r, Track(pub, 0), held);
    cs, es := Then(cs, es, EvClose(p));
    RunsKeepInv(cs, es, |es|);
    OnlyComing(cs[|es|].sessions[r], Track(pub, 0), held);
  }

  lemma OnlyComing(s: Session, t: Track, held: bool)
    requires OnlyAdd(s, t, held)
    ensures !Carries(s, t) && IsComing(s, t) && IsHolding(s, t) == held
  {
  }

  lemma PublishQueues(c: State, p: Id, r: Id, pub: Pub)
    requires TwoInCall(c, p, r) && p != r && pub.owner == p && pub.kind == Voice
    ensures Can(c, EvPublish(p, pub, _ => Low, _ => 0))
    ensures var c' := Do(c, EvPublish(p, pub, _ => Low, _ => 0));
      && p in c'.sessions && r in c'.sessions && pub in c'.used && OnlyAdd(c'.sessions[r], Track(pub, 0), false)
      && c'.sessions[r].initDone && c'.sessions[r].worker.Idle? && |c'.sessions[r].queue| == 1
  {
    assert Do(c, EvPublish(p, pub, _ => Low, _ => 0)) == Publish(c, p, pub, _ => Low, _ => 0);
    assert Receive(c.sessions[p], c.sessions[r], pub, Low, 0).queue == [Add(Track(pub, 0))];
    hide WithPub, Receive;
  }

  /** No senders, and the add of `t` is coming. */
  predicate OnlyAdd(s: Session, t: Track, held: bool) { s.senders == [] && IsComing(s, t) && IsHolding(s, t) == held }

  lemma TakesIt(c: State, r: Id, t: Track)
    requires r in c.sessions && OnlyAdd(c.sessions[r], t, false) && |c.sessions[r].queue| == 1
    requires c.sessions[r].initDone && c.sessions[r].worker.Idle?
    ensures Can(c, EvWork(r, false, Answered))
    ensures var c' := Do(c, EvWork(r, false, Answered));
      && c'.sessions.Keys == c.sessions.Keys && c'.used == c.used && OnlyAdd(c'.sessions[r], t, true)
  {
    var e := EvWork(r, false, Answered);
    assert Do(c, e) == WorkOf(c, r, false, Answered);
    assert c.sessions[r].queue[0] == Add(t);
  }

  lemma CloseKeepsComing(c: State, p: Id, r: Id, t: Track, held: bool)
    requires p in c.sessions && r in c.sessions && p != r && OnlyAdd(c.sessions[r], t, held)
    ensures Can(c, EvClose(p))
    ensures var c' := Do(c, EvClose(p));
      r in c'.sessions && p in c'.gone && c'.used == c.used && OnlyAdd(c'.sessions[r], t, held)
  {
    var pubs, sharer := Published(c.sessions[p]), c.screenSession == Some(p);
    assert Do(c, EvClose(p)) == Close(c, p);
    hide Published, Departed;
    var s' := AfterDeparture(c.sessions[r], pubs, sharer);
    assert s'.queue == c.sessions[r].queue && s'.senders == [] && s'.worker == c.sessions[r].worker;
    hide AfterDeparture;
  }
}
