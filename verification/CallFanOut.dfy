/** Whom a publication is offered to, and that nobody is offered anything else: each receiver one
    codec of each source, one it can decode, and of two simulcast layers the one it expects. */
module CallFanOut {
  import opened CallModel
  import opened CallSessions
  import opened CallInvariants
  import opened CallRuns
  import opened CallDeparture
  import opened CallPublications
  import opened Wrappers

  /** AV1 goes to those who have it; VP8 to those for whom there is no AV1, because the publisher
      or the receiver lacks it. */
  predicate CodecFits(pub: Pub, publisherHas: bool, receiverHas: bool) {
    && (pub.mime == AV1 ==> receiverHas)
    && (pub.mime == VP8 ==> !publisherHas || !receiverHas)
  }

  /** Audio is for everybody, a simulcast layer for those who expect its level. */
  predicate Suits(pub: Pub, publisherHas: bool, receiverHas: bool, expected: Level) {
    match pub.kind
    case Voice => true
    case ScreenAudio => true
    case _ => CodecFits(pub, publisherHas, receiverHas) && pub.rid != Some(if expected == High then Low else High)
  }

  /** What a step is, event by event. */
  lemma StepSays(c: State, e: Event, c': State)
    requires Step(c, e, c')
    ensures match e
      case EvJoin(id, av1) => c' == Join(c, id, av1)
      case EvInit(id, order, copies) => id in c.sessions && IsOrder(c, id, order) && c' == InitTracks(c, id, order, copies)
      case EvPublish(id, pub, expected, copies) =>
        id in c.sessions && pub.owner == id && c' == Publish(c, id, pub, expected, copies)
      case EvLateInit(id, order, copies) => id in c.gone && IsOrder(c, id, order) && c' == LateInit(c, id, order, copies)
      case EvLatePublish(id, pub, expected, copies) =>
        id in c.gone && pub.owner == id && c' == LatePublish(c, id, pub, expected, copies)
      case EvWork(id, lost, outcome) => CanWorkOf(c, id, outcome) && c' == WorkOf(c, id, lost, outcome)
      case EvScreenOn(id) => c' == ScreenOn(c, id)
      case EvLateScreenOn(id) => c' == ScreenOn(c, id)
      case EvScreenOff(id) => c' == ScreenOff(c, id)
      case EvSwitchOut(id, pub, copy) => CanSwitch(c, id, pub) && c' == SwitchOutOf(c, id, pub, copy)
      case EvSwitchIn(id) => CanSwitchIn(c, id) && c' == SwitchInOf(c, id)
      case EvClose(id) => id in c.sessions && c' == Close(c, id)
  {
    hide Join, InitTracks, Publish, LateInit, LatePublish, CanWorkOf, WorkOf, ScreenOn, ScreenOff, CanSwitch, SwitchOutOf,
         CanSwitchIn, SwitchInOf, Close, IsOrder;
  }

  lemma ReceivedIff(p: Session, r: Session, pub: Pub, expected: Level, copy: nat)
    ensures var r' := Receive(p, r, pub, expected, copy);
      && r'.offered == r.offered + (if r.initDone && Suits(pub, p.av1, r.av1, expected) then multiset{pub} else multiset{})
      && (r.initDone && Suits(pub, p.av1, r.av1, expected) && |r.queue| < TracksChSize ==>
            r'.queue == r.queue + [Add(Track(pub, copy))])
  {
  }

  /** A publication is offered to exactly those whose tracks are initialised and whom it suits, and
      where there is room it is the next thing in their queue; also one that comes after its
      publisher has left. */
  lemma PublishedIff(c: State, e: Event, c': State, r: Id)
    requires Inv(c) && Step(c, e, c') && (e.EvPublish? || e.EvLatePublish?) && r in c.sessions && r != e.id
    ensures IsMember(c, e.id) && r in c'.sessions
    ensures var s, s' := c.sessions[r], c'.sessions[r];
      var isFor := s.initDone && Suits(e.pub, Member(c, e.id).av1, s.av1, e.expected(r));
      && s'.offered == s.offered + (if isFor then multiset{e.pub} else multiset{})
      && (isFor && |s.queue| < TracksChSize ==> s'.queue == s.queue + [Add(Track(e.pub, e.copies(r)))])
  {
    hide *;
    StepSays(c, e, c');
    if e.EvPublish? {
      PublishedSession(c, e.id, e.pub, e.expected, e.copies, r);
      ReceivedIff(c.sessions[e.id], c.sessions[r], e.pub, e.expected(r), e.copies(r));
      InCall(c, e.id);
    } else {
      GoneIsOut(c, e.id);
      LatePublishedSession(c, e.id, e.pub, e.expected, e.copies, r);
      ReceivedIff(c.gone[e.id], c.sessions[r], e.pub, e.expected(r), e.copies(r));
      Gone(c, e.id);
    }
  }

  lemma InCall(c: State, id: Id)
    requires id in c.sessions
    ensures IsMember(c, id) && Member(c, id) == c.sessions[id]
  {
  }

  lemma Gone(c: State, id: Id)
    requires id in c.gone && id !in c.sessions
    ensures IsMember(c, id) && Member(c, id) == c.gone[id]
  {
  }

  lemma LatePublishedSession(c: State, id: Id, pub: Pub, expected: Id -> Level, copies: Id -> nat, r: Id)
    requires id in c.gone && id !in c.sessions && r in c.sessions
    ensures var c' := LatePublish(c, id, pub, expected, copies);
      && c'.sessions.Keys == c.sessions.Keys && c'.gone == c.gone[id := WithPub(c.gone[id], pub)]
      && c'.sessions[r] == Receive(c.gone[id], c.sessions[r], pub, expected(r), copies(r))
  {
    hide Receive, WithPub;
  }

  // ------------------------------------------------------------- nothing else

  lemma WithPubAv1(s: Session, pub: Pub)
    ensures WithPub(s, pub).av1 == s.av1
  {
  }

  lemma PublishAv1(c: State, id: Id, pub: Pub, expected: Id -> Level, copies: Id -> nat, p: Id)
    requires id in c.sessions && IsMember(c, p)
    ensures var c' := Publish(c, id, pub, expected, copies);
      IsMember(c', p) && Member(c', p).av1 == Member(c, p).av1
  {
    WithPubAv1(c.sessions[id], pub);
    if p in c.sessions {
      ReceiveView(c.sessions[id], c.sessions[p], pub, expected(p), copies(p));
      PublishedSession(c, id, pub, expected, copies, p);
    }
    hide Receive, WithPub;
  }

  lemma LatePublishAv1(c: State, id: Id, pub: Pub, expected: Id -> Level, copies: Id -> nat, p: Id)
    requires id in c.gone && id !in c.sessions && IsMember(c, p)
    ensures var c' := LatePublish(c, id, pub, expected, copies);
      IsMember(c', p) && Member(c', p).av1 == Member(c, p).av1
  {
    WithPubAv1(c.gone[id], pub);
    if p in c.sessions {
      LateReceiver(c, id, pub, expected, copies, p);
      InCall(c, p);
    } else {
      LateKeys(c, id, pub, expected, copies);
    }
    hide Receive, WithPub;
  }

  lemma InitAv1(c: State, e: Event, c': State, p: Id)
    requires Step(c, e, c') && (e.EvInit? || e.EvLateInit?) && IsMember(c, p)
    ensures IsMember(c', p) && Member(c', p).av1 == Member(c, p).av1
  {
    var us := Member(c, e.id);
    if e.EvInit? {
      OfferAllView(us, JoinTracks(c, us, e.order, e.copies));
    } else {
      OfferAllView(c.gone[e.id], JoinTracks(c, c.gone[e.id], e.order, e.copies));
    }
    hide OfferAll, JoinTracks, IsOrder;
  }

  lemma QueueAv1(c: State, e: Event, c': State, p: Id)
    requires Step(c, e, c') && (e.EvSwitchOut? || e.EvSwitchIn? || e.EvWork?) && IsMember(c, p)
    ensures IsMember(c', p) && Member(c', p).av1 == Member(c, p).av1
  {
    match e
    case EvWork(id, lost, outcome) =>
      WorkView(Member(c, id), lost, outcome);
      hide Work, CanWork;
    case EvSwitchOut(id, pub, copy) =>
      var s := Member(c, id);
      EnqueueFields(s, Remove(s.senders[s.screenSender.value]));
      hide Enqueue, OnScreen;
    case EvSwitchIn(id) =>
      EnqueueFields(Member(c, id), Add(c.switching[id]));
      hide Enqueue;
  }

  lemma CloseAv1(c: State, id: Id, p: Id)
    requires id in c.sessions && IsMember(c, p)
    ensures IsMember(Close(c, id), p)
    ensures id !in c.gone && p !in c.gone ==> Member(Close(c, id), p).av1 == Member(c, p).av1
    ensures p in c.gone && p !in c.sessions ==> Member(Close(c, id), p).av1 == Member(c, p).av1
  {
    if p in c.sessions {
      DepartureView(c.sessions[p], Published(c.sessions[id]), c.screenSession == Some(id));
    }
    hide AfterDeparture, Published;
  }

  /** Whether a session has AV1 is settled when it joins. */
  lemma Av1Stays(c: State, e: Event, c': State, p: Id)
    requires Inv(c) && Step(c, e, c') && IsMember(c, p)
    ensures IsMember(c', p) && Member(c', p).av1 == Member(c, p).av1
  {
    hide *;
    MemberSplit(c, p);
    StepSays(c, e, c');
    if e.EvPublish? {
      PublishAv1(c, e.id, e.pub, e.expected, e.copies, p);
    } else if e.EvLatePublish? {
      GoneIsOut(c, e.id);
      LatePublishAv1(c, e.id, e.pub, e.expected, e.copies, p);
    } else if e.EvInit? || e.EvLateInit? {
      InitAv1(c, e, c', p);
    } else if e.EvSwitchOut? || e.EvSwitchIn? || e.EvWork? {
      QueueAv1(c, e, c', p);
    } else {
      OtherAv1(c, e, c', p);
    }
  }

  lemma MemberSplit(c: State, p: Id)
    requires Inv(c) && IsMember(c, p)
    ensures p in c.sessions <==> p !in c.gone
  {
    if p in c.gone {
      GoneIsOut(c, p);
    }
    hide Inv;
  }

  lemma ScreenAv1(c: State, id: Id, p: Id)
    requires IsMember(c, p)
    ensures IsMember(ScreenOff(c, id), p) && Member(ScreenOff(c, id), p).av1 == Member(c, p).av1
    ensures IsMember(ScreenOn(c, id), p) && Member(ScreenOn(c, id), p).av1 == Member(c, p).av1
  {
    if p in c.sessions {
      ScreenView(c.sessions[p]);
    }
    hide WithoutScreen, DropScreen;
  }

  lemma JoinAv1(c: State, id: Id, av1: bool, p: Id)
    requires IsMember(c, p) && (p in c.sessions <==> p !in c.gone) && id !in c.gone
    ensures IsMember(Join(c, id, av1), p) && Member(Join(c, id, av1), p) == Member(c, p)
  {
    hide NewSession;
  }

  lemma OtherAv1(c: State, e: Event, c': State, p: Id)
    requires Inv(c) && Step(c, e, c') && IsMember(c, p)
    requires e.EvJoin? || e.EvScreenOn? || e.EvLateScreenOn? || e.EvScreenOff? || e.EvClose?
    ensures IsMember(c', p) && Member(c', p).av1 == Member(c, p).av1
  {
    hide *;
    StepSays(c, e, c');
    MemberSplit(c, p);
    if e.EvClose? {
      InCall(c, e.id);
      MemberSplit(c, e.id);
      CloseAv1(c, e.id, p);
    } else if e.EvJoin? {
      JoinIsNew(c, e, c');
      JoinAv1(c, e.id, e.av1, p);
    } else {
      ScreenAv1(c, e.id, p);
    }
  }

  lemma JoinIsNew(c: State, e: Event, c': State)
    requires Step(c, e, c') && e.EvJoin?
    ensures e.id !in c.gone
  {
    hide Join;
  }

  /** `pub` may have been offered to `r`: it is another session's, in a codec that fits. */
  predicate IsMeantFor(c: State, r: Id, pub: Pub)
    requires r in c.sessions
  {
    && IsMember(c, pub.owner) && pub.owner != r
    && (IsAudio(pub.kind) || CodecFits(pub, Member(c, pub.owner).av1, c.sessions[r].av1))
  }

  lemma SentFits(c: State, p: Id, r: Session, pub: Pub)
    requires p in c.sessions && SlotsOk(c.used, p, c.sessions[p]) && Sent(c.sessions[p], r, pub)
    ensures pub.owner == p && (IsAudio(pub.kind) || CodecFits(pub, c.sessions[p].av1, r.av1))
  {
  }

  lemma InitOffers(c: State, e: Event, c': State, r: Id, pub: Pub)
    requires Inv(c) && Step(c, e, c') && e.EvInit? && r in c.sessions && c'.sessions[r].offered[pub] > 0
    ensures c.sessions[r].offered[pub] > 0 || IsMeantFor(c, r, pub)
  {
    hide IsMeantFor;
    if r == e.id {
      var us := c.sessions[r];
      var ts := JoinTracks(c, us, e.order, e.copies);
      OfferAllOffers(us, ts);
      JoinedOnlySent(c, r, us, e.order, e.copies, pub);
      hide OfferAll, JoinTracks, IsOrder, Inv;
    } else {
      hide OfferAll, JoinTracks, IsOrder, Inv;
    }
  }

  lemma JoinedOnlySent(c: State, id: Id, us: Session, order: seq<Id>, copies: Id -> nat, pub: Pub)
    requires Inv(c) && id in c.sessions && c.sessions[id] == us && IsOrder(c, id, order)
    ensures Pubs(JoinTracks(c, us, order, copies))[pub] > 0 ==> IsMeantFor(c, id, pub)
  {
    InitCounts(c, id, us, order, copies);
    if Pubs(JoinTracks(c, us, order, copies))[pub] > 0 {
      assert SlotsOk(c.used, pub.owner, c.sessions[pub.owner]);
      SentFits(c, pub.owner, us, pub);
    }
    hide Inv, IsOrder, Sent, Pubs, JoinTracks;
  }

  lemma PublishOffers(c: State, e: Event, c': State, r: Id, pub: Pub)
    requires Inv(c) && Step(c, e, c') && (e.EvPublish? || e.EvLatePublish?)
    requires r in c.sessions && r in c'.sessions && c'.sessions[r].offered[pub] > 0
    ensures c.sessions[r].offered[pub] > 0 || IsMeantFor(c, r, pub)
  {
    hide *;
    if r != e.id {
      PublishedIff(c, e, c', r);
      StepSays(c, e, c');
      if c.sessions[r].offered[pub] == 0 {
        assert pub == e.pub;
        SuitedIsMeant(c, r, pub, e.expected(r));
      }
    } else {
      OwnPublish(c, e, c');
    }
  }

  lemma SuitedIsMeant(c: State, r: Id, pub: Pub, expected: Level)
    requires r in c.sessions && r != pub.owner && IsMember(c, pub.owner)
    requires Suits(pub, Member(c, pub.owner).av1, c.sessions[r].av1, expected)
    ensures IsMeantFor(c, r, pub)
  {
    hide CodecFits;
  }

  lemma OwnPublish(c: State, e: Event, c': State)
    requires Inv(c) && Step(c, e, c') && (e.EvPublish? || e.EvLatePublish?) && e.id in c.sessions
    ensures e.id in c'.sessions && c'.sessions[e.id].offered == c.sessions[e.id].offered
  {
    if e.EvPublish? {
      WithPubFields(c.sessions[e.id], e.pub);
    } else {
      GoneIsOut(c, e.id);
    }
    hide Inv, Receive, WithPub;
  }

  lemma QuietOffers(c: State, e: Event, c': State, r: Id, pub: Pub)
    requires Inv(c) && Step(c, e, c') && !IsLayer(pub) && !e.EvJoin? && !e.EvInit? && !e.EvPublish? && !e.EvLatePublish?
    requires r in c'.sessions
    ensures r in c.sessions && c'.sessions[r].offered[pub] == c.sessions[r].offered[pub]
  {
    hide *;
    StepSays(c, e, c');
    InvParts(c);
    match e
    case EvLateInit(id, order, copies) => LateInitSessions(c, id, order, copies);
    case EvWork(id, lost, outcome) => WorkOffers(c, id, lost, outcome, r);
    case EvScreenOff(id) => ScreenOffOffers(c, id, r);
    case EvSwitchOut(id, x, copy) =>
      SwitchOutQuieter(c, id, x, copy);
      QuieterOffers(c, c', r, pub);
    case EvSwitchIn(id) =>
      SwitchInQuieter(c, id);
      QuieterOffers(c, c', r, pub);
    case EvClose(id) =>
      CloseQuieter(c, id);
      QuieterOffers(c, c', r, pub);
    case EvScreenOn(id) => ScreenOffOffers(c, id, r);
    case EvLateScreenOn(id) => ScreenOffOffers(c, id, r);
    case _ =>
  }

  lemma InvParts(c: State)
    requires Inv(c)
    ensures OffersOk(c) && GoneSlotsOk(c) && SwitchesOk(c)
  {
    hide OffersOk, GoneSlotsOk, SwitchesOk, LedgersOk, GaugeOk, OwnerOk, Delivered;
  }

  lemma QuieterOffers(c: State, c': State, r: Id, pub: Pub)
    requires AllQuieter(c, c') && r in c'.sessions && !IsLayer(pub)
    ensures r in c.sessions && c'.sessions[r].offered[pub] == c.sessions[r].offered[pub]
  {
  }

  lemma WorkOffers(c: State, id: Id, lost: bool, outcome: Outcome, r: Id)
    requires CanWorkOf(c, id, outcome) && r in WorkOf(c, id, lost, outcome).sessions
    ensures r in c.sessions && WorkOf(c, id, lost, outcome).sessions[r].offered == c.sessions[r].offered
  {
    if id in c.sessions {
      WorkView(c.sessions[id], lost, outcome);
    }
    hide Work;
  }

  lemma ScreenOffOffers(c: State, id: Id, r: Id)
    ensures ScreenOn(c, id).sessions == c.sessions
    ensures r in ScreenOff(c, id).sessions ==> r in c.sessions && ScreenOff(c, id).sessions[r].offered == c.sessions[r].offered
  {
    if r in c.sessions {
      ScreenView(c.sessions[r]);
    }
    hide WithoutScreen, DropScreen;
  }

  lemma MeantStays(c: State, e: Event, c': State, r: Id, pub: Pub)
    requires Inv(c) && Step(c, e, c') && r in c.sessions && r in c'.sessions && IsMeantFor(c, r, pub)
    ensures IsMeantFor(c', r, pub)
  {
    Av1Stays(c, e, c', pub.owner);
    Av1Stays(c, e, c', r);
    hide Inv, Step, CodecFits;
  }

  lemma JoinOffers(c: State, e: Event, c': State, r: Id, pub: Pub)
    requires Step(c, e, c') && e.EvJoin? && r in c'.sessions && c'.sessions[r].offered[pub] > 0
    ensures r in c.sessions && c.sessions[r].offered[pub] > 0
  {
  }

  /** An offer is new and meant for its receiver, or was made before. */
  lemma StepOffers(c: State, e: Event, c': State, r: Id, pub: Pub)
    requires Inv(c) && Step(c, e, c') && !IsLayer(pub) && r in c'.sessions && c'.sessions[r].offered[pub] > 0
    ensures r in c.sessions && (c.sessions[r].offered[pub] > 0 || IsMeantFor(c, r, pub))
  {
    hide *;
    if e.EvJoin? {
      JoinOffers(c, e, c', r, pub);
    } else if e.EvInit? {
      SameMembers(c, e, c', r);
      InitOffers(c, e, c', r, pub);
    } else if e.EvPublish? || e.EvLatePublish? {
      SameMembers(c, e, c', r);
      PublishOffers(c, e, c', r, pub);
    } else {
      QuietOffers(c, e, c', r, pub);
    }
  }

  lemma SameMembers(c: State, e: Event, c': State, r: Id)
    requires Step(c, e, c') && (e.EvInit? || e.EvPublish? || e.EvLatePublish?) && r in c'.sessions
    ensures r in c.sessions
  {
    hide OfferAll, JoinTracks, IsOrder, Receive, WithPub;
  }

  /** Nothing else is offered: on every run whatever a receiver in the call has been offered, a
      simulcast layer of a screen aside, is audio or in the codec that fits the two, and none of it
      its own. So of a source that publishes in two codecs it gets one. */
  lemma {:induction false} NothingElseIsOffered(cs: seq<State>, es: seq<Event>, i: nat, r: Id, pub: Pub)
    requires IsRun(cs, es) && Initial(cs[0]) && i <= |es| && r in cs[i].sessions
    requires cs[i].sessions[r].offered[pub] > 0 && !IsLayer(pub)
    ensures IsMeantFor(cs[i], r, pub)
  {
    hide *;
    if i > 0 {
      RunStep(cs, es, i - 1);
      RunsKeepInv(cs, es, i - 1);
      StepOffers(cs[i - 1], es[i - 1], cs[i], r, pub);
      if cs[i - 1].sessions[r].offered[pub] > 0 {
        NothingElseIsOffered(cs, es, i - 1, r, pub);
      }
      MeantStays(cs[i - 1], es[i - 1], cs[i], r, pub);
    } else {
      NobodyYet(cs, es, r);
    }
  }

  lemma NobodyYet(cs: seq<State>, es: seq<Event>, r: Id)
    requires IsRun(cs, es) && Initial(cs[0])
    ensures r !in cs[0].sessions
  {
    hide Step;
  }

  lemma RunStep(cs: seq<State>, es: seq<Event>, i: nat)
    requires IsRun(cs, es) && i < |es|
    ensures |cs| == |es| + 1 && Step(cs[i], es[i], cs[i + 1])
  {
    hide Step;
  }
}
