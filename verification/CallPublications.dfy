/** What becomes of a publication, told by the events of a run alone: from OnTrack until its
    publisher leaves, publishes again in its place, or ends the screen share. */
module CallPublications {
  import opened CallModel
  import opened CallSessions
  import opened CallInvariants
  import opened CallRuns
  import opened CallDeparture
  import opened Wrappers

  /** The session shows `pub` where its kind belongs. */
  predicate Shows(s: Session, pub: Pub) {
    match pub.kind
    case Voice => s.voice == Some(pub)
    case ScreenAudio => s.screenAudio == Some(pub)
    case Screen => KeyOf(pub) in s.screen && s.screen[KeyOf(pub)] == pub
    case Video => KeyOf(pub) in s.video && s.video[KeyOf(pub)] == pub
  }

  /** Of the same kind, for video of the same codec and both or neither the high layer. */
  predicate SamePlace(a: Pub, b: Pub) {
    a.kind == b.kind && (IsAudio(b.kind) || (a.mime == b.mime && (a.rid == Some(High) <==> b.rid == Some(High))))
  }

  /** `p` publishes something in the same place. */
  predicate Replaces(e: Event, p: Id, pub: Pub) { e.EvPublish? && e.id == p && SamePlace(e.pub, pub) }

  /** `p` ends its share, which takes its screen and screen audio with it. */
  predicate Withdraws(c: State, e: Event, p: Id, pub: Pub) {
    e == EvScreenOff(p) && c.screenSession == Some(p) && (pub.kind == Screen || pub.kind == ScreenAudio)
  }

  /** Published at k by `p`, still in the call at i, and neither replaced nor withdrawn. */
  ghost predicate Stands(cs: seq<State>, es: seq<Event>, k: nat, i: nat, p: Id, pub: Pub)
    requires IsRun(cs, es)
  {
    && k < i <= |es| && es[k].EvPublish? && es[k].id == p && es[k].pub == pub && p in cs[i].sessions
    && forall j :: k < j < i ==> !Replaces(es[j], p, pub) && !Withdraws(cs[j], es[j], p, pub)
  }

  // ------------------------------------------------------- what a session shows

  lemma ShowsAlike(s: Session, s': Session, pub: Pub)
    requires SameView(s, s')
    ensures Shows(s', pub) <==> Shows(s, pub)
  {
  }

  lemma Recorded(s: Session, pub: Pub)
    ensures Shows(WithPub(s, pub), pub)
  {
  }

  lemma RecordedBeside(s: Session, other: Pub, p: Id, pub: Pub)
    requires Shows(s, pub) && !SamePlace(other, pub)
    ensures Shows(WithPub(s, other), pub)
  {
  }

  lemma PublishLeaves(c: State, id: Id, other: Pub, expected: Id -> Level, copies: Id -> nat, p: Id, pub: Pub)
    requires id in c.sessions && p in c.sessions && Shows(c.sessions[p], pub)
    requires !(id == p && SamePlace(other, pub))
    ensures var c' := Publish(c, id, other, expected, copies);
      p in c'.sessions && Shows(c'.sessions[p], pub)
  {
    PublishedSession(c, id, other, expected, copies, p);
    hide Publish, Shows, WithPub, Receive, SameView, SamePlace;
    if p == id {
      RecordedBeside(c.sessions[p], other, p, pub);
    } else {
      ReceiveView(c.sessions[id], c.sessions[p], other, expected(p), copies(p));
      ShowsAlike(c.sessions[p], Publish(c, id, other, expected, copies).sessions[p], pub);
    }
  }

  lemma InitLeaves(c: State, id: Id, order: seq<Id>, copies: Id -> nat, p: Id)
    requires id in c.sessions && p in c.sessions && forall k :: 0 <= k < |order| ==> order[k] in c.sessions
    ensures var c' := InitTracks(c, id, order, copies);
      p in c'.sessions && SameView(c.sessions[p], c'.sessions[p])
  {
    OfferAllView(c.sessions[id], JoinTracks(c, c.sessions[id], order, copies));
    hide OfferAll, JoinTracks;
  }

  lemma WorkLeaves(c: State, id: Id, lost: bool, outcome: Outcome, p: Id)
    requires CanWorkOf(c, id, outcome) && p in c.sessions
    ensures var c' := WorkOf(c, id, lost, outcome);
      p in c'.sessions && SameView(c.sessions[p], c'.sessions[p])
  {
    if id in c.sessions {
      WorkView(c.sessions[id], lost, outcome);
    }
    hide Work;
  }

  lemma SwitchLeaves(c: State, id: Id, s': Session, c': State, p: Id)
    requires IsMember(c, id) && SameView(Member(c, id), s') && p in c.sessions
    requires c' == PutMember(c, id, s').(switching := c'.switching)
    ensures p in c'.sessions && SameView(c.sessions[p], c'.sessions[p])
  {
  }

  lemma CloseLeaves(c: State, id: Id, p: Id)
    requires id in c.sessions && p in c.sessions && p != id
    ensures var c' := Close(c, id);
      p in c'.sessions && SameView(c.sessions[p], c'.sessions[p])
  {
    var s := c.sessions[p];
    var s0 := if c.screenSession == Some(id) then s.(screenSender := None) else s;
    SweepExact(s0, Published(c.sessions[id]), |s0.senders|);
    hide Published, Departed, Sweep;
  }

  lemma ScreenOffLeaves(c: State, id: Id, p: Id, pub: Pub)
    requires p in c.sessions && Shows(c.sessions[p], pub) && !Withdraws(c, EvScreenOff(id), p, pub)
    ensures var c' := ScreenOff(c, id);
      p in c'.sessions && Shows(c'.sessions[p], pub)
  {
  }

  lemma ShowsStays(c: State, e: Event, c': State, p: Id, pub: Pub)
    requires Inv(c) && Step(c, e, c') && p in c.sessions && p in c'.sessions && Shows(c.sessions[p], pub)
    requires !Replaces(e, p, pub) && !Withdraws(c, e, p, pub)
    ensures Shows(c'.sessions[p], pub)
  {
    hide Inv, Shows, Withdraws, SameView, Join, InitTracks, Publish, LateInit, LatePublish, WorkOf, ScreenOff, SwitchOutOf,
         SwitchInOf, Close, CanWorkOf, CanSwitch, CanSwitchIn, Enqueue, SamePlace;
    match e
    case EvJoin(id, av1) => JoinLeaves(c, id, av1, p);
    case EvInit(id, order, copies) =>
      InitLeaves(c, id, order, copies, p);
      ShowsAlike(c.sessions[p], c'.sessions[p], pub);
    case EvPublish(id, other, expected, copies) => PublishLeaves(c, id, other, expected, copies, p, pub);
    case EvLateInit(id, order, copies) => LateInitSessions(c, id, order, copies);
    case EvLatePublish(id, other, expected, copies) =>
      GoneIsOut(c, id);
      LateReceiver(c, id, other, expected, copies, p);
      ShowsAlike(c.sessions[p], c'.sessions[p], pub);
    case EvWork(id, lost, outcome) =>
      WorkLeaves(c, id, lost, outcome, p);
      ShowsAlike(c.sessions[p], c'.sessions[p], pub);
    case EvScreenOn(id) =>
    case EvLateScreenOn(id) =>
    case EvScreenOff(id) => ScreenOffLeaves(c, id, p, pub);
    case EvSwitchOut(id, other, copy) =>
      SwitchOutLeaves(c, id, other, copy, p);
      ShowsAlike(c.sessions[p], c'.sessions[p], pub);
    case EvSwitchIn(id) =>
      SwitchInLeaves(c, id, p);
      ShowsAlike(c.sessions[p], c'.sessions[p], pub);
    case EvClose(id) =>
      CloseRemoves(c, id);
      CloseLeaves(c, id, p);
      ShowsAlike(c.sessions[p], c'.sessions[p], pub);
  }

  lemma JoinLeaves(c: State, id: Id, av1: bool, p: Id)
    requires p in c.sessions
    ensures p in Join(c, id, av1).sessions && Join(c, id, av1).sessions[p] == c.sessions[p]
  {
    hide NewSession;
  }

  lemma SwitchOutLeaves(c: State, id: Id, pub: Pub, copy: nat, p: Id)
    requires CanSwitch(c, id, pub) && p in c.sessions
    ensures var c' := SwitchOutOf(c, id, pub, copy);
      p in c'.sessions && SameView(c.sessions[p], c'.sessions[p])
  {
    var s := Member(c, id);
    EnqueueFields(s, Remove(s.senders[s.screenSender.value]));
    hide Enqueue, SameView;
    SwitchLeaves(c, id, SwitchOut(s), SwitchOutOf(c, id, pub, copy), p);
  }

  lemma SwitchInLeaves(c: State, id: Id, p: Id)
    requires CanSwitchIn(c, id) && p in c.sessions
    ensures var c' := SwitchInOf(c, id);
      p in c'.sessions && SameView(c.sessions[p], c'.sessions[p])
  {
    var s, t := Member(c, id), c.switching[id];
    EnqueueFields(s, Add(t));
    hide Enqueue;
    SwitchLeaves(c, id, Offer(s, t), SwitchInOf(c, id), p);
  }

  // --------------------------------------------------------- over the runs

  lemma MemberStays(c: State, e: Event, c': State, p: Id)
    requires Step(c, e, c') && IsMember(c, p)
    ensures IsMember(c', p)
  {
    hide Work, AfterDeparture, Published, OfferAll, JoinTracks, Receive, WithPub, SwitchOut, Offer, DropScreen,
         WithoutScreen, NewSession, IsOrder, OnScreen, CanWork, Departed;
  }

  lemma {:induction false} MemberAllAlong(cs: seq<State>, es: seq<Event>, k: nat, j: nat, p: Id)
    requires IsRun(cs, es) && k <= j <= |es| && p in cs[k].sessions
    ensures IsMember(cs[j], p)
    decreases j
  {
    if k < j {
      MemberAllAlong(cs, es, k, j - 1, p);
      assert Step(cs[j - 1], es[j - 1], cs[j]);
      hide IsRun, Step;
      MemberStays(cs[j - 1], es[j - 1], cs[j], p);
    }
  }

  /** Nobody who has left comes back, so whoever is in the call now was in it all along. */
  lemma {:induction false} InCallAllAlong(cs: seq<State>, es: seq<Event>, k: nat, j: nat, i: nat, p: Id)
    requires IsRun(cs, es) && Initial(cs[0]) && k <= j <= i <= |es| && p in cs[k].sessions && p in cs[i].sessions
    ensures p in cs[j].sessions && p !in cs[j].gone
    decreases i - j
  {
    hide Step, Initial, Inv;
    RunsKeepInv(cs, es, j);
    MemberAllAlong(cs, es, k, j, p);
    if p in cs[j].gone {
      GoneAllAlong(cs, es, j, i, p);
      RunsKeepInv(cs, es, i);
      GoneIsOut(cs[i], p);
    }
  }

  lemma {:induction false} GoneAllAlong(cs: seq<State>, es: seq<Event>, j: nat, i: nat, p: Id)
    requires IsRun(cs, es) && j <= i <= |es| && p in cs[j].gone
    ensures p in cs[i].gone
    decreases i
  {
    if j < i {
      GoneAllAlong(cs, es, j, i - 1, p);
      assert Step(cs[i - 1], es[i - 1], cs[i]);
      hide IsRun, Step;
      GoneStaysGone(cs[i - 1], es[i - 1], cs[i], p);
    }
  }

  lemma PublisherIsIn(c: State, e: Event, c': State)
    requires Step(c, e, c') && e.EvPublish?
    ensures e.id in c.sessions && e.id in c'.sessions && Shows(c'.sessions[e.id], e.pub)
  {
    PublishedSession(c, e.id, e.pub, e.expected, e.copies, e.id);
    Recorded(c.sessions[e.id], e.pub);
    hide Publish, WithPub, Receive, Shows;
  }

  lemma StandsFrom(cs: seq<State>, es: seq<Event>, k: nat, i: nat, p: Id, pub: Pub)
    requires IsRun(cs, es) && Stands(cs, es, k, i, p, pub)
    ensures k < i <= |es| && |cs| == |es| + 1 && p in cs[i].sessions
    ensures Step(cs[k], es[k], cs[k + 1]) && es[k].EvPublish? && es[k].id == p && es[k].pub == pub
    ensures Step(cs[i - 1], es[i - 1], cs[i])
    ensures k + 1 < i ==> !Replaces(es[i - 1], p, pub) && !Withdraws(cs[i - 1], es[i - 1], p, pub)
    ensures k + 1 < i && p in cs[i - 1].sessions ==> Stands(cs, es, k, i - 1, p, pub)
  {
    hide Step, Replaces, Withdraws;
  }

  /** What stands is shown. */
  lemma {:induction false} StandingIsShown(cs: seq<State>, es: seq<Event>, k: nat, i: nat, p: Id, pub: Pub)
    requires IsRun(cs, es) && Initial(cs[0]) && Stands(cs, es, k, i, p, pub)
    ensures i <= |es| && |cs| == |es| + 1 && p in cs[i].sessions && Shows(cs[i].sessions[p], pub)
    decreases i
  {
    hide *;
    StandsFrom(cs, es, k, i, p, pub);
    PublisherIsIn(cs[k], es[k], cs[k + 1]);
    if k + 1 < i {
      InCallAllAlong(cs, es, k, i - 1, i, p);
      StandingIsShown(cs, es, k, i - 1, p, pub);
      RunsKeepInv(cs, es, i - 1);
      ShowsStays(cs[i - 1], es[i - 1], cs[i], p, pub);
    }
  }

  /** The receivers a publication is for: everybody for audio, for plain video those with whom the
      publisher shares its codec. */
  predicate IsFor(pub: Pub, p: Session, r: Session) {
    IsAudio(pub.kind) || (pub.rid.None? && pub.mime == if p.av1 && r.av1 then AV1 else VP8)
  }

  lemma ShownIsCurrent(p: Session, r: Session, pub: Pub)
    requires Shows(p, pub) && IsFor(pub, p, r)
    ensures Current(p, r, pub)
  {
  }

  /** Exactly-once, told by the events: as long as a publication stands, every other session with
      initialised tracks that it is for has been offered it once, whether it joined before the
      publication or after. */
  lemma PublicationReachesAll(cs: seq<State>, es: seq<Event>, k: nat, i: nat, p: Id, pub: Pub, r: Id)
    requires IsRun(cs, es) && Initial(cs[0]) && Stands(cs, es, k, i, p, pub)
    requires r in cs[i].sessions && r != p && cs[i].sessions[r].initDone && IsFor(pub, cs[i].sessions[p], cs[i].sessions[r])
    ensures cs[i].sessions[r].offered[pub] == 1
  {
    StandingIsShown(cs, es, k, i, p, pub);
    ShownIsCurrent(cs[i].sessions[p], cs[i].sessions[r], pub);
    hide Stands, Shows, Current, Initial, Step, IsFor;
    ExactlyOnce(cs, es, i, p, r, pub);
  }

  lemma ShownIsPublished(s: Session, pub: Pub)
    requires Shows(s, pub)
    ensures pub in Published(s)
  {
    match pub.kind
    case Voice =>
    case ScreenAudio =>
    case Screen => assert s.screen[KeyOf(pub)] in s.screen.Values;
    case Video => assert s.video[KeyOf(pub)] in s.video.Values;
  }

  /** And when its publisher leaves, no other session carries it any more if it is audio, and the
      removal of it is queued, or the queue full, if it is video. */
  lemma PublicationIsSwept(cs: seq<State>, es: seq<Event>, k: nat, i: nat, p: Id, pub: Pub, r: Id, copy: nat)
    requires IsRun(cs, es) && Initial(cs[0]) && i < |es| && Stands(cs, es, k, i, p, pub) && es[i] == EvClose(p)
    requires r in cs[i].sessions && r != p
    ensures var t, c' := Track(pub, copy), cs[i + 1];
      && r in c'.sessions
      && (Carries(c'.sessions[r], t) ==>
            !Audio(t) && (Remove(Some(t)) in c'.sessions[r].queue || |c'.sessions[r].queue| >= TracksChSize))
  {
    assert Step(cs[i], es[i], cs[i + 1]);
    StandingIsShown(cs, es, k, i, p, pub);
    hide IsRun, Initial, Stands;
    SweptAtClose(cs[i], p, cs[i + 1], r, pub, copy);
  }

  lemma SweptAtClose(c: State, p: Id, c': State, r: Id, pub: Pub, copy: nat)
    requires Step(c, EvClose(p), c') && p in c.sessions && Shows(c.sessions[p], pub) && r in c.sessions && r != p
    ensures var t := Track(pub, copy);
      && r in c'.sessions
      && (Carries(c'.sessions[r], t) ==>
            !Audio(t) && (Remove(Some(t)) in c'.sessions[r].queue || |c'.sessions[r].queue| >= TracksChSize))
  {
    ShownIsPublished(c.sessions[p], pub);
    assert c' == Close(c, p);
    hide *;
    DepartureCleansUp(c, p, r);
    if Carries(c'.sessions[r], Track(pub, copy)) {
      SweptOne(c.sessions[r], c'.sessions[r], Published(c.sessions[p]), c.screenSession == Some(p), Track(pub, copy));
    }
  }

  lemma SweptOne(s: Session, s': Session, pubs: set<Pub>, sharer: bool, t: Track)
    requires CleanedUp(s, s', pubs, sharer) && t.pub in pubs && Carries(s', t)
    ensures !Audio(t) && (Remove(Some(t)) in s'.queue || |s'.queue| >= TracksChSize)
  {
  }
}
