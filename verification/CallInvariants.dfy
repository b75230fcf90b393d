/** What every run of a call keeps: the session ledgers, the sum of the gauge, the
    screen-share owner, and exactly-once fan-out of publications. */
module CallInvariants {
  import opened CallModel
  import opened CallSessions
  import opened Wrappers

  // ----------------------------------------------------------------- the gauge

  ghost function Sum(m: map<Id, int>): int
    decreases |m|
  {
    if m == map[] then 0 else
      var k :| k in m;
      m[k] + Sum(m - {k})
  }

  lemma {:induction false} SumRemove(m: map<Id, int>, k: Id)
    requires k in m
    ensures Sum(m) == m[k] + Sum(m - {k})
    decreases |m|
  {
    var j :| j in m && Sum(m) == m[j] + Sum(m - {j});
    if j != k {
      SumRemove(m - {j}, k);
      SumRemove(m - {k}, j);
      assert m - {j} - {k} == m - {k} - {j};
    }
  }

  lemma SumPut(m: map<Id, int>, k: Id, v: int)
    ensures Sum(m[k := v]) == Sum(m) + v - if k in m then m[k] else 0
  {
    var m' := m[k := v];
    SumRemove(m', k);
    if k in m {
      SumRemove(m, k);
      assert m' - {k} == m - {k};
    } else {
      assert m' - {k} == m;
    }
  }

  /** Increments minus decrements, session by session. */
  function Opens(m: map<Id, Session>): map<Id, int> { map k | k in m :: m[k].open }

  lemma OpensPut(m: map<Id, Session>, k: Id, s: Session)
    ensures Sum(Opens(m[k := s])) == Sum(Opens(m)) + s.open - if k in m then m[k].open else 0
  {
    SumPut(Opens(m), k, s.open);
    assert Opens(m[k := s]) == Opens(m)[k := s.open];
  }

  lemma OpensSame(m: map<Id, Session>, m': map<Id, Session>)
    requires m'.Keys == m.Keys && forall k :: k in m ==> m'[k].open == m[k].open
    ensures Sum(Opens(m')) == Sum(Opens(m))
  {
    assert Opens(m') == Opens(m);
  }

  lemma OpensWithout(m: map<Id, Session>, k: Id)
    requires k in m
    ensures Sum(Opens(m - {k})) == Sum(Opens(m)) - m[k].open
  {
    SumRemove(Opens(m), k);
    assert Opens(m - {k}) == Opens(m) - {k};
  }

  ghost predicate GaugeOk(c: State) {
    c.gauge == Sum(Opens(c.sessions)) + Sum(Opens(c.gone))
  }

  // ------------------------------------------------------------ well-formedness

  predicate SlotOk(used: set<Pub>, id: Id, pub: Pub, kind: Kind) {
    pub.owner == id && pub.kind == kind && pub in used
  }

  /** Every publication sits in the slot of its kind, under its own key. */
  ghost predicate SlotsOk(used: set<Pub>, id: Id, s: Session) {
    && (s.voice.Some? ==> SlotOk(used, id, s.voice.value, Voice))
    && (s.screenAudio.Some? ==> SlotOk(used, id, s.screenAudio.value, ScreenAudio))
    && (forall k :: k in s.screen ==> SlotOk(used, id, s.screen[k], Screen) && KeyOf(s.screen[k]) == k)
    && (forall k :: k in s.video ==> SlotOk(used, id, s.video[k], Video) && KeyOf(s.video[k]) == k)
  }

  ghost predicate LedgersOk(c: State) {
    && (forall r :: r in c.sessions ==> LiveOk(c.sessions[r]))
    && (forall r :: r in c.gone ==> GoneOk(c.gone[r]))
    && (forall r :: r in c.sessions ==> r !in c.gone)
  }

  ghost predicate OffersOk(c: State) {
    && (forall r :: r in c.sessions ==> SlotsOk(c.used, r, c.sessions[r]))
    && (forall r, pub :: r in c.sessions && pub in c.sessions[r].offered ==> pub in c.used)
  }

  /** What the sessions that have left still publish. */
  ghost predicate GoneSlotsOk(c: State) {
    forall r :: r in c.gone ==> SlotsOk(c.used, r, c.gone[r])
  }

  /** The owner of the screen share is or was in the call. */
  predicate OwnerOk(c: State) {
    c.screenSession.Some? ==> IsMember(c, c.screenSession.value)
  }

  /** `pub` is current at `p` and of the kind `r` is to receive. Simulcast layers are not
      covered: which one a receiver gets depends on its bandwidth estimate. */
  predicate Current(p: Session, r: Session, pub: Pub) {
    var k := Key(Wanted(p, r), Low);
    || p.voice == Some(pub)
    || p.screenAudio == Some(pub)
    || (pub.rid.None? && (Lookup(p.screen, k) == Some(pub) || Lookup(p.video, k) == Some(pub)))
  }

  ghost predicate Delivered(c: State) {
    forall p, r, pub ::
      p in c.sessions && r in c.sessions && p != r && c.sessions[r].initDone
      && Current(c.sessions[p], c.sessions[r], pub)
      ==> c.sessions[r].offered[pub] == 1
  }

  ghost predicate Core(c: State) {
    LedgersOk(c) && GaugeOk(c) && OffersOk(c) && GoneSlotsOk(c) && OwnerOk(c) && Delivered(c)
  }

  predicate IsLayer(pub: Pub) { pub.kind == Screen && pub.rid.Some? }

  /** Switches under way are to known layers. */
  ghost predicate SwitchesOk(c: State) {
    forall id :: id in c.switching ==> IsLayer(c.switching[id].pub) && c.switching[id].pub in c.used
  }

  ghost predicate Inv(c: State) { Core(c) && SwitchesOk(c) }

  // ------------------------------------------------------------------- ledgers

  lemma {:induction false} JoinTracksFor(c: State, r: Session, order: seq<Id>, copies: Id -> nat, pub: Pub)
    requires OffersOk(c)
    requires forall k :: 0 <= k < |order| ==> order[k] in c.sessions
    requires forall j, k :: 0 <= j < k < |order| ==> order[j] != order[k]
    ensures Pubs(JoinTracks(c, r, order, copies))[pub]
            == Bit(pub.owner in order && pub.owner in c.sessions && Sent(c.sessions[pub.owner], r, pub))
  {
    if order == [] {
      assert PubSeq(JoinTracks(c, r, order, copies)) == [];
    } else {
      var init, p := order[..|order| - 1], order[|order| - 1];
      assert order == init + [p];
      JoinTracksFor(c, r, init, copies, pub);
      PubsConcat(JoinTracks(c, r, init, copies), TracksFor(c.sessions[p], r, copies(p)));
      TracksForCount(c, p, r, copies(p), pub);
    }
  }

  /** `pub` is among the tracks of `p` a joining `r` is sent. */
  predicate Sent(p: Session, r: Session, pub: Pub) {
    var k := Key(Wanted(p, r), Low);
    || p.voice == Some(pub) || p.screenAudio == Some(pub)
    || Lookup(p.screen, k) == Some(pub) || Lookup(p.video, k) == Some(pub)
  }

  lemma PlainCount(o: Option<Pub>, copy: nat, pub: Pub)
    ensures Pubs(Plain(o, copy))[pub] == Bit(o == Some(pub))
  {
    assert PubSeq(Plain(o, copy)) == if o.None? then [] else [o.value];
  }

  lemma TracksForCount(c: State, id: Id, r: Session, copy: nat, pub: Pub)
    requires id in c.sessions && SlotsOk(c.used, id, c.sessions[id])
    ensures Pubs(TracksFor(c.sessions[id], r, copy))[pub]
            == Bit(pub.owner == id && Sent(c.sessions[id], r, pub))
  {
    var p := c.sessions[id];
    var k := Key(Wanted(p, r), Low);
    var a, b, d, e := Plain(p.voice, 0), Plain(Lookup(p.screen, k), copy), Plain(p.screenAudio, 0), Plain(Lookup(p.video, k), copy);
    PubsConcat(a + b + d, e);
    PubsConcat(a + b, d);
    PubsConcat(a, b);
    PlainCount(p.voice, 0, pub);
    PlainCount(Lookup(p.screen, k), copy, pub);
    PlainCount(p.screenAudio, 0, pub);
    PlainCount(Lookup(p.video, k), copy, pub);
  }

  /** How often the join-time pass offers a publication. */
  function JoinCount(c: State, id: Id, us: Session, pub: Pub): nat {
    Bit(pub.owner != id && pub.owner in c.sessions && Sent(c.sessions[pub.owner], us, pub))
  }

  lemma InitCounts(c: State, id: Id, us: Session, order: seq<Id>, copies: Id -> nat)
    requires OffersOk(c) && IsOrder(c, id, order)
    ensures forall pub :: Pubs(JoinTracks(c, us, order, copies))[pub] == JoinCount(c, id, us, pub)
  {
    forall pub ensures Pubs(JoinTracks(c, us, order, copies))[pub] == JoinCount(c, id, us, pub) {
      JoinTracksFor(c, us, order, copies, pub);
    }
  }

  lemma InitLive(us: Session, ts: seq<Track>)
    requires LiveOk(us) && !us.initDone
    requires forall pub: Pub :: Pubs(ts)[pub] <= 1
    ensures LiveOk(OfferAll(us, ts).(initDone := true))
    ensures OfferAll(us, ts).offered == Pubs(ts)
  {
    OfferAllOk(us, ts);
    OfferAllOffers(us, ts);
    var s, s' := OfferAll(us, ts), OfferAll(us, ts).(initDone := true);
    SameTracksOk(s, OfferAll(us, ts));
    assert forall t :: Spent(s', t) == Spent(s, t);
    assert forall t :: Carries(s', t) == Carries(s, t);
  }

  // ---------------------------------------------------------------- ledgers

  ghost predicate Ledger(c: State) { LedgersOk(c) && GaugeOk(c) && OwnerOk(c) }

  lemma NewSessionOk(av1: bool)
    ensures LiveOk(NewSession(av1)) && NewSession(av1).open == 0
  {
  }

  lemma JoinGauge(c: State, id: Id, av1: bool)
    requires GaugeOk(c)
    ensures GaugeOk(Join(c, id, av1))
  {
    OpensPut(c.sessions, id, NewSession(av1));
  }

  lemma JoinLedgersOk(c: State, id: Id, av1: bool)
    requires LedgersOk(c) && id !in c.gone
    ensures LedgersOk(Join(c, id, av1))
  {
    NewSessionOk(av1);
    hide LiveOk, GoneOk, NewSession;
  }

  lemma JoinLedger(c: State, id: Id, av1: bool)
    requires Ledger(c) && id !in c.gone
    ensures Ledger(Join(c, id, av1))
  {
    hide LedgersOk, GaugeOk, NewSession;
    JoinLedgersOk(c, id, av1);
    JoinGauge(c, id, av1);
  }

  /** One session replaced, the gauge following its share. */
  lemma PutLedger(c: State, id: Id, s': Session, c': State)
    requires Ledger(c) && id in c.sessions && LiveOk(s')
    requires c'.sessions == c.sessions[id := s'] && c'.gone == c.gone && c'.screenSession == c.screenSession
    requires c'.gauge == c.gauge + s'.open - c.sessions[id].open
    ensures Ledger(c')
  {
    hide LiveOk, GoneOk, Opens, Sum;
    OpensPut(c.sessions, id, s');
  }

  lemma PutGoneLedger(c: State, id: Id, s': Session, c': State)
    requires Ledger(c) && id in c.gone && GoneOk(s')
    requires c' == c.(gone := c.gone[id := s'], gauge := c.gauge + s'.open - c.gone[id].open, switching := c'.switching)
    ensures Ledger(c')
  {
    hide LiveOk, GoneOk, Opens, Sum;
    OpensPut(c.gone, id, s');
  }

  /** Every session replaced by one with the same share. */
  lemma ReplaceLedger(c: State, c': State)
    requires Ledger(c) && c'.gone == c.gone && c'.gauge == c.gauge
    requires c'.sessions.Keys == c.sessions.Keys && OwnerOk(c')
    requires forall r :: r in c.sessions ==> LiveOk(c'.sessions[r]) && c'.sessions[r].open == c.sessions[r].open
    ensures Ledger(c')
  {
    hide LiveOk, GoneOk, Opens, Sum;
    OpensSame(c.sessions, c'.sessions);
  }

  lemma PublishLedger(c: State, id: Id, pub: Pub, expected: Id -> Level, copies: Id -> nat)
    requires Ledger(c) && OffersOk(c) && id in c.sessions && pub !in c.used
    ensures Ledger(Publish(c, id, pub, expected, copies))
  {
    hide LiveOk, GoneOk, GaugeOk, SlotsOk, WithPub, Receive;
    var c' := Publish(c, id, pub, expected, copies);
    forall r | r in c.sessions ensures LiveOk(c'.sessions[r]) && c'.sessions[r].open == c.sessions[r].open {
      if r == id {
        WithPubOk(c.sessions[id], pub);
      } else {
        ReceiveOk(c.sessions[id], c.sessions[r], pub, expected(r), copies(r));
      }
    }
    ReplaceLedger(c, c');
  }

  lemma ReceiveOk(p: Session, r: Session, pub: Pub, expected: Level, copy: nat)
    requires LiveOk(r) && pub !in r.offered
    ensures LiveOk(Receive(p, r, pub, expected, copy))
    ensures Receive(p, r, pub, expected, copy).open == r.open
  {
    if r.initDone {
      OfferOk(r, Track(pub, copy));
    }
  }

  lemma InitLedger(c: State, id: Id, order: seq<Id>, copies: Id -> nat)
    requires Ledger(c) && OffersOk(c) && id in c.sessions && !c.sessions[id].initDone && IsOrder(c, id, order)
    ensures Ledger(InitTracks(c, id, order, copies))
  {
    var us := c.sessions[id];
    var ts := JoinTracks(c, us, order, copies);
    InitCounts(c, id, us, order, copies);
    InitLive(us, ts);
    OfferAllOffers(us, ts);
    PutLedger(c, id, OfferAll(us, ts).(initDone := true), InitTracks(c, id, order, copies));
  }

  lemma WorkLedger(c: State, id: Id, lost: bool, outcome: Outcome)
    requires Ledger(c) && CanWorkOf(c, id, outcome)
    ensures Ledger(WorkOf(c, id, lost, outcome))
  {
    var c' := WorkOf(c, id, lost, outcome);
    if id in c.sessions {
      WorkOk(c.sessions[id], lost, outcome);
      PutLedger(c, id, Work(c.sessions[id], lost, outcome), c');
    } else {
      GoneWorkOk(c.gone[id], lost, outcome);
      PutGoneLedger(c, id, Work(c.gone[id], lost, outcome), c');
    }
  }

  lemma ScreenOffLedger(c: State, id: Id)
    requires Ledger(c)
    ensures Ledger(ScreenOff(c, id))
  {
    hide LiveOk, GoneOk, GaugeOk, DropScreen;
    var c' := ScreenOff(c, id);
    if c.screenSession == Some(id) {
      forall r | r in c.sessions ensures LiveOk(c'.sessions[r]) && c'.sessions[r].open == c.sessions[r].open {
        UnrelatedOk(c.sessions[r], WithoutScreen(c.sessions[r]));
        DropScreenOk(c.sessions[r]);
      }
      ReplaceLedger(c, c');
    }
  }

  /** A session with one more action queued. */
  lemma QueuedMember(c: State, id: Id, a: Action)
    requires Ledger(c) && IsMember(c, id)
    ensures id !in c.sessions ==> GoneOk(Enqueue(Member(c, id), a))
    ensures Enqueue(Member(c, id), a).open == Member(c, id).open
    ensures id in c.sessions ==> LiveOk(Member(c, id))
  {
    EnqueueFields(Member(c, id), a);
    hide GaugeOk, OwnerOk, LiveOk, Enqueue, SameView;
    if id !in c.sessions {
      QueueingGone(Member(c, id), Enqueue(Member(c, id), a));
    }
  }

  lemma SwitchOutLedger(c: State, id: Id, pub: Pub, copy: nat)
    requires Ledger(c) && CanSwitch(c, id, pub)
    ensures Ledger(SwitchOutOf(c, id, pub, copy))
  {
    hide Ledger, LiveOk, GoneOk, Enqueue;
    var s := Member(c, id);
    QueuedMember(c, id, Remove(s.senders[s.screenSender.value]));
    if id in c.sessions {
      SwitchOutOk(s);
    }
    PutMemberLedger(c, id, SwitchOut(s), SwitchOutOf(c, id, pub, copy));
  }

  lemma SwitchInLedger(c: State, id: Id)
    requires Ledger(c) && SwitchesOk(c) && CanSwitchIn(c, id)
    ensures Ledger(SwitchInOf(c, id))
  {
    hide Ledger, LiveOk, GoneOk, Enqueue;
    var s, t := Member(c, id), c.switching[id];
    QueuedMember(c, id, Add(t));
    if id in c.sessions {
      SwitchInOk(s, t);
    } else {
      OfferGone(s, t);
    }
    PutMemberLedger(c, id, Offer(s, t), SwitchInOf(c, id));
  }

  lemma OfferGone(s: Session, t: Track)
    requires GoneOk(Enqueue(s, Add(t)))
    ensures GoneOk(Offer(s, t))
  {
    QueueingGone(Enqueue(s, Add(t)), Offer(s, t));
  }

  lemma EnqueueFields(s: Session, a: Action)
    ensures var s' := Enqueue(s, a);
      && s'.open == s.open && s'.worker == s.worker && s'.senders == s.senders && SameView(s, s')
      && s'.initDone == s.initDone && s'.offered == s.offered
  {
  }

  lemma QueueingGone(s: Session, s': Session)
    requires GoneOk(s) && s'.senders == s.senders && s'.worker == s.worker && s'.open == s.open
    ensures GoneOk(s')
  {
  }

  lemma PutMemberLedger(c: State, id: Id, s': Session, c': State)
    requires Ledger(c) && IsMember(c, id) && s'.open == Member(c, id).open
    requires if id in c.sessions then LiveOk(s') else GoneOk(s')
    requires c' == PutMember(c, id, s').(switching := c'.switching)
    ensures Ledger(c')
  {
    hide LiveOk, GoneOk, LedgersOk, GaugeOk, OwnerOk;
    if id in c.sessions {
      PutLedger(c, id, s', c');
    } else {
      PutGoneLedger(c, id, s', c');
    }
  }

  lemma CloseLedger(c: State, id: Id)
    requires Ledger(c) && id in c.sessions
    ensures Ledger(Close(c, id))
  {
    hide LiveOk, GoneOk, AfterDeparture, Departed, Published, GaugeOk;
    var c', us := Close(c, id), c.sessions[id];
    forall r | r in c'.sessions ensures LiveOk(c'.sessions[r]) && c'.sessions[r].open == c.sessions[r].open {
      AfterDepartureOk(c.sessions[r], Published(us), c.screenSession == Some(id));
    }
    DepartedOk(us);
    CloseGauge(c, id, c');
  }

  lemma CloseGauge(c: State, id: Id, c': State)
    requires GaugeOk(c) && id in c.sessions && id !in c.gone && c' == Close(c, id)
    requires forall r :: r in c'.sessions ==> c'.sessions[r].open == c.sessions[r].open
    ensures GaugeOk(c')
  {
    hide AfterDeparture, Published, Opens, Sum;
    OpensWithout(c.sessions, id);
    OpensSame(c.sessions - {id}, c'.sessions);
    OpensPut(c.gone, id, c'.gone[id]);
  }

  // ------------------------------------------------------- publications and offers

  predicate SameView(s: Session, s': Session) {
    && s'.voice == s.voice && s'.screenAudio == s.screenAudio
    && s'.screen == s.screen && s'.video == s.video && s'.av1 == s.av1
  }

  /** `s'` shows nothing new and was offered nothing new but simulcast layers. */
  ghost predicate Quieter(s: Session, s': Session) {
    && s'.av1 == s.av1 && s'.initDone == s.initDone
    && s'.voice == s.voice && s'.video == s.video
    && (s'.screenAudio == s.screenAudio || s'.screenAudio == None)
    && (s'.screen == s.screen || s'.screen == map[])
    && (forall pub :: !IsLayer(pub) ==> s'.offered[pub] == s.offered[pub])
  }

  ghost predicate AllQuieter(c: State, c': State) {
    && c.used <= c'.used
    && (forall r :: r in c'.sessions ==> r in c.sessions && Quieter(c.sessions[r], c'.sessions[r]))
    && (forall r, pub :: r in c'.sessions && pub in c'.sessions[r].offered ==> pub in c'.used)
  }

  /** A current publication is not a screen layer. */
  lemma CurrentIsNoLayer(c: State, p: Id, r: Session, pub: Pub)
    requires p in c.sessions && SlotsOk(c.used, p, c.sessions[p]) && Current(c.sessions[p], r, pub)
    ensures !IsLayer(pub) && pub.owner == p && pub in c.used
  {
  }

  lemma QuieterSlots(c: State, c': State, id: Id, s: Session, s': Session)
    requires SlotsOk(c.used, id, s) && c.used <= c'.used && Quieter(s, s')
    ensures SlotsOk(c'.used, id, s')
  {
  }

  lemma QuieterKeeps(c: State, c': State)
    requires OffersOk(c) && Delivered(c) && AllQuieter(c, c')
    ensures OffersOk(c') && Delivered(c')
  {
    forall r | r in c'.sessions ensures SlotsOk(c'.used, r, c'.sessions[r]) {
      QuieterSlots(c, c', r, c.sessions[r], c'.sessions[r]);
    }
    hide SlotsOk;
    forall p, r, pub | p in c'.sessions && r in c'.sessions && p != r && c'.sessions[r].initDone
                       && Current(c'.sessions[p], c'.sessions[r], pub)
      ensures c'.sessions[r].offered[pub] == 1
    {
      assert Current(c.sessions[p], c.sessions[r], pub);
      CurrentIsNoLayer(c, p, c.sessions[r], pub);
    }
  }

  lemma WorkView(s: Session, lost: bool, outcome: Outcome)
    requires CanWork(s)
    ensures SameView(s, Work(s, lost, outcome)) && Work(s, lost, outcome).offered == s.offered
    ensures Work(s, lost, outcome).initDone == s.initDone
  {
  }

  lemma WorkDelivers(c: State, id: Id, lost: bool, outcome: Outcome)
    requires OffersOk(c) && Delivered(c) && CanWorkOf(c, id, outcome)
    ensures OffersOk(WorkOf(c, id, lost, outcome)) && Delivered(WorkOf(c, id, lost, outcome))
  {
    hide Work, SlotsOk, Delivered;
    if id in c.sessions {
      WorkView(c.sessions[id], lost, outcome);
    }
    QuieterKeeps(c, WorkOf(c, id, lost, outcome));
  }

  lemma ScreenView(s: Session)
    ensures Quieter(s, WithoutScreen(s)) && WithoutScreen(s).offered == s.offered
    ensures Quieter(s, DropScreen(s)) && DropScreen(s).offered == s.offered
  {
  }

  lemma ScreenOffDelivers(c: State, id: Id)
    requires OffersOk(c) && Delivered(c)
    ensures OffersOk(ScreenOff(c, id)) && Delivered(ScreenOff(c, id))
  {
    hide SlotsOk, Delivered, Quieter, WithoutScreen, DropScreen;
    if c.screenSession == Some(id) {
      var c' := ScreenOff(c, id);
      forall r | r in c'.sessions
        ensures Quieter(c.sessions[r], c'.sessions[r]) && c'.sessions[r].offered == c.sessions[r].offered
      {
        ScreenView(c.sessions[r]);
      }
      QuieterKeeps(c, c');
    }
  }

  /** Queueing shows nothing new. */
  lemma QueueingView(s: Session, a: Action)
    ensures Quieter(s, Enqueue(s, a)) && Enqueue(s, a).offered == s.offered
  {
  }

  lemma SwitchInView(s: Session, t: Track)
    requires IsLayer(t.pub)
    ensures Quieter(s, Offer(s, t)) && Offer(s, t).offered == s.offered + multiset{t.pub}
  {
  }

  lemma SameQuieter(s: Session)
    ensures Quieter(s, s)
  {
  }

  /** A layer that can be switched to is a known publication. */
  lemma SwitchTarget(c: State, id: Id, pub: Pub)
    requires OffersOk(c) && GoneSlotsOk(c) && CanSwitch(c, id, pub)
    ensures IsLayer(pub) && pub.owner == c.screenSession.value && pub in c.used
  {
    var owner := c.screenSession.value;
    assert SlotsOk(c.used, owner, Member(c, owner));
  }

  /** One receiver replaced, or none. */
  lemma OneQuieter(c: State, id: Id, s': Session, pub: Pub, c': State)
    requires OffersOk(c) && pub in c.used && c'.used == c.used
    requires c'.sessions == c.sessions || (id in c.sessions && c'.sessions == c.sessions[id := s']
             && Quieter(c.sessions[id], s') && s'.offered <= c.sessions[id].offered + multiset{pub})
    ensures AllQuieter(c, c')
  {
    hide SlotsOk, Quieter;
    forall r | r in c'.sessions ensures Quieter(c.sessions[r], c'.sessions[r]) {
      SameQuieter(c.sessions[r]);
    }
  }

  lemma SwitchOutQuieter(c: State, id: Id, pub: Pub, copy: nat)
    requires OffersOk(c) && GoneSlotsOk(c) && CanSwitch(c, id, pub)
    ensures AllQuieter(c, SwitchOutOf(c, id, pub, copy))
  {
    SwitchTarget(c, id, pub);
    var s := Member(c, id);
    QueueingView(s, Remove(s.senders[s.screenSender.value]));
    hide OffersOk, GoneSlotsOk, AllQuieter, Quieter, Enqueue, IsLayer;
    OneQuieter(c, id, SwitchOut(s), pub, SwitchOutOf(c, id, pub, copy));
  }

  lemma SwitchInQuieter(c: State, id: Id)
    requires OffersOk(c) && SwitchesOk(c) && CanSwitchIn(c, id)
    ensures AllQuieter(c, SwitchInOf(c, id))
  {
    var s, t := Member(c, id), c.switching[id];
    SwitchInView(s, t);
    hide OffersOk, AllQuieter, Quieter, Offer, IsLayer;
    OneQuieter(c, id, Offer(s, t), t.pub, SwitchInOf(c, id));
  }

  lemma SwitchOutDelivers(c: State, id: Id, pub: Pub, copy: nat)
    requires OffersOk(c) && GoneSlotsOk(c) && Delivered(c) && CanSwitch(c, id, pub)
    ensures OffersOk(SwitchOutOf(c, id, pub, copy)) && Delivered(SwitchOutOf(c, id, pub, copy))
  {
    hide *;
    SwitchOutQuieter(c, id, pub, copy);
    QuieterKeeps(c, SwitchOutOf(c, id, pub, copy));
  }

  lemma SwitchInDelivers(c: State, id: Id)
    requires OffersOk(c) && Delivered(c) && SwitchesOk(c) && CanSwitchIn(c, id)
    ensures OffersOk(SwitchInOf(c, id)) && Delivered(SwitchInOf(c, id))
  {
    hide *;
    SwitchInQuieter(c, id);
    QuieterKeeps(c, SwitchInOf(c, id));
  }

  lemma DepartureView(s: Session, pubs: set<Pub>, wasSharer: bool)
    ensures Quieter(s, AfterDeparture(s, pubs, wasSharer)) && AfterDeparture(s, pubs, wasSharer).offered == s.offered
  {
    var s' := if wasSharer then s.(screenSender := None) else s;
    SweepExact(s', pubs, |s'.senders|);
  }

  lemma CloseQuieter(c: State, id: Id)
    requires OffersOk(c) && id in c.sessions
    ensures AllQuieter(c, Close(c, id))
  {
    var c', us := Close(c, id), c.sessions[id];
    hide SlotsOk, AfterDeparture, Published, Departed, Quieter;
    forall r | r in c'.sessions
      ensures Quieter(c.sessions[r], c'.sessions[r]) && c'.sessions[r].offered == c.sessions[r].offered
    {
      DepartureView(c.sessions[r], Published(us), c.screenSession == Some(id));
    }
  }

  lemma CloseDelivers(c: State, id: Id)
    requires OffersOk(c) && Delivered(c) && id in c.sessions
    ensures OffersOk(Close(c, id)) && Delivered(Close(c, id))
  {
    hide *;
    CloseQuieter(c, id);
    QuieterKeeps(c, Close(c, id));
  }

  lemma NewShowsNothing(c: State, id: Id, av1: bool, r: Session)
    ensures SlotsOk(c.used, id, NewSession(av1)) && NewSession(av1).offered == multiset{}
    ensures !NewSession(av1).initDone && forall pub :: !Current(NewSession(av1), r, pub)
  {
  }

  lemma JoinSlots(c: State, id: Id, av1: bool)
    requires OffersOk(c)
    ensures OffersOk(Join(c, id, av1))
  {
    var c' := Join(c, id, av1);
    NewShowsNothing(c', id, av1, NewSession(av1));
    forall r | r in c.sessions ensures SlotsOk(c'.used, r, c.sessions[r]) {
      SameQuieter(c.sessions[r]);
      QuieterSlots(c, c', r, c.sessions[r], c.sessions[r]);
    }
    hide SlotsOk, NewSession;
  }

  lemma JoinDelivers(c: State, id: Id, av1: bool)
    requires OffersOk(c) && Delivered(c)
    ensures OffersOk(Join(c, id, av1)) && Delivered(Join(c, id, av1))
  {
    JoinSlots(c, id, av1);
    var c' := Join(c, id, av1);
    hide OffersOk, NewSession, Current;
    forall p, r, pub | p in c'.sessions && r in c'.sessions && p != r && c'.sessions[r].initDone
                       && Current(c'.sessions[p], c'.sessions[r], pub)
      ensures c'.sessions[r].offered[pub] == 1
    {
      NewShowsNothing(c', id, av1, c'.sessions[r]);
    }
  }

  lemma {:induction false} OfferAllView(s: Session, ts: seq<Track>)
    ensures SameView(s, OfferAll(s, ts))
  {
    if ts != [] {
      OfferAllView(s, ts[..|ts| - 1]);
    }
  }

  lemma InitDelivered(c: State, id: Id, us': Session, c': State)
    requires Delivered(c) && OffersOk(c) && id in c.sessions && c' == c.(sessions := c.sessions[id := us'])
    requires SameView(c.sessions[id], us')
    requires forall pub :: us'.offered[pub] == JoinCount(c, id, c.sessions[id], pub)
    ensures Delivered(c')
  {
    var us := c.sessions[id];
    hide SlotsOk;
    forall p, r, pub | p in c.sessions && r in c.sessions && p != r && c'.sessions[r].initDone
                       && Current(c'.sessions[p], c'.sessions[r], pub)
      ensures c'.sessions[r].offered[pub] == 1
    {
      assert Current(c.sessions[p], c.sessions[r], pub);
      if r == id {
        CurrentIsNoLayer(c, p, us, pub);
        assert us'.offered[pub] == JoinCount(c, id, us, pub);
      }
    }
  }

  lemma SameViewSlots(c: State, id: Id, s: Session, s': Session)
    requires SlotsOk(c.used, id, s) && SameView(s, s')
    ensures SlotsOk(c.used, id, s')
  {
  }

  /** What is counted by the join-time pass is a known publication. */
  lemma JoinCountUsed(c: State, id: Id, us: Session, pub: Pub)
    requires OffersOk(c) && JoinCount(c, id, us, pub) > 0
    ensures pub in c.used
  {
    assert SlotsOk(c.used, pub.owner, c.sessions[pub.owner]);
  }

  lemma InitOffersOk(c: State, id: Id, us': Session, c': State)
    requires OffersOk(c) && id in c.sessions && c' == c.(sessions := c.sessions[id := us'])
    requires SameView(c.sessions[id], us')
    requires forall pub :: us'.offered[pub] == JoinCount(c, id, c.sessions[id], pub)
    ensures OffersOk(c')
  {
    hide SlotsOk, JoinCount;
    forall r | r in c.sessions ensures SlotsOk(c'.used, r, c'.sessions[r]) {
      SameViewSlots(c, r, c.sessions[r], c'.sessions[r]);
      SlotsElsewhere(c, c', r, c'.sessions[r]);
    }
    forall pub | pub in us'.offered ensures pub in c.used {
      assert us'.offered[pub] == JoinCount(c, id, c.sessions[id], pub);
      JoinCountUsed(c, id, c.sessions[id], pub);
    }
  }

  lemma SlotsElsewhere(c: State, c': State, id: Id, s: Session)
    requires SlotsOk(c.used, id, s) && c.used <= c'.used
    ensures SlotsOk(c'.used, id, s)
  {
  }

  lemma InitDelivers(c: State, id: Id, order: seq<Id>, copies: Id -> nat)
    requires OffersOk(c) && Delivered(c) && id in c.sessions && LiveOk(c.sessions[id]) && !c.sessions[id].initDone
    requires IsOrder(c, id, order)
    ensures OffersOk(InitTracks(c, id, order, copies)) && Delivered(InitTracks(c, id, order, copies))
  {
    var us := c.sessions[id];
    var ts := JoinTracks(c, us, order, copies);
    InitCounts(c, id, us, order, copies);
    InitLive(us, ts);
    OfferAllView(us, ts);
    hide LiveOk, SlotsOk, JoinCount, OfferAll, JoinTracks;
    var us' := OfferAll(us, ts).(initDone := true);
    InitDelivered(c, id, us', InitTracks(c, id, order, copies));
    InitOffersOk(c, id, us', InitTracks(c, id, order, copies));
  }

  // the fan-out

  /** A receiver the publication is meant for accepts it. */
  lemma MeantIsAccepted(c: State, id: Id, r: Session, pub: Pub, expected: Level)
    requires id in c.sessions && Current(WithPub(c.sessions[id], pub), r, pub)
    requires SlotsOk(c.used, id, c.sessions[id]) && pub !in c.used
    ensures Accepts(c.sessions[id], r, pub, expected)
  {
  }

  lemma LookupPut(m: map<Key, Pub>, k: Key, pub: Pub, j: Key)
    ensures Lookup(m[k := pub], j) == if j == k then Some(pub) else Lookup(m, j)
  {
  }

  /** A publication changes what is shown to itself, in at most one slot. */
  lemma WithPubShows(p: Session, pub: Pub, j: Key)
    ensures var q := WithPub(p, pub);
      && q.av1 == p.av1
      && (q.voice == p.voice || q.voice == Some(pub))
      && (q.screenAudio == p.screenAudio || q.screenAudio == Some(pub))
      && (Lookup(q.screen, j) == Lookup(p.screen, j) || Lookup(q.screen, j) == Some(pub))
      && (Lookup(q.video, j) == Lookup(p.video, j) || Lookup(q.video, j) == Some(pub))
  {
    LookupPut(p.screen, KeyOf(pub), pub, j);
    LookupPut(p.video, KeyOf(pub), pub, j);
    hide Lookup, KeyOf;
  }

  /** Whatever else is current there was current before. */
  lemma OthersStayCurrent(c: State, id: Id, r: Session, pub: Pub, x: Pub)
    requires id in c.sessions && Current(WithPub(c.sessions[id], pub), r, x) && x != pub
    ensures Current(c.sessions[id], r, x)
  {
    hide WithPub, Lookup;
    WithPubShows(c.sessions[id], pub, Key(Wanted(c.sessions[id], r), Low));
  }

  lemma ReceiveView(p: Session, r: Session, pub: Pub, expected: Level, copy: nat)
    ensures var r' := Receive(p, r, pub, expected, copy);
      && SameView(r, r') && r'.initDone == r.initDone
      && r'.offered == (if r.initDone && Accepts(p, r, pub, expected) then r.offered + multiset{pub} else r.offered)
  {
  }

  lemma WithAudioSlots(used: set<Pub>, used': set<Pub>, id: Id, s: Session, pub: Pub)
    requires SlotsOk(used, id, s) && pub.owner == id && used <= used' && pub in used' && IsAudio(pub.kind)
    ensures SlotsOk(used', id, WithPub(s, pub))
  {
  }

  lemma WithScreenSlots(used: set<Pub>, used': set<Pub>, id: Id, s: Session, pub: Pub)
    requires SlotsOk(used, id, s) && pub.owner == id && used <= used' && pub in used' && pub.kind == Screen
    ensures SlotsOk(used', id, WithPub(s, pub))
  {
  }

  lemma WithVideoSlots(used: set<Pub>, used': set<Pub>, id: Id, s: Session, pub: Pub)
    requires SlotsOk(used, id, s) && pub.owner == id && used <= used' && pub in used' && pub.kind == Video
    ensures SlotsOk(used', id, WithPub(s, pub))
  {
  }

  lemma WithPubView(used: set<Pub>, used': set<Pub>, id: Id, s: Session, pub: Pub)
    requires SlotsOk(used, id, s) && pub.owner == id && used <= used' && pub in used'
    ensures SlotsOk(used', id, WithPub(s, pub))
    ensures WithPub(s, pub).av1 == s.av1 && WithPub(s, pub).offered == s.offered
  {
    WithPubFields(s, pub);
    hide SlotsOk, WithPub;
    match pub.kind
    case Voice => WithAudioSlots(used, used', id, s, pub);
    case ScreenAudio => WithAudioSlots(used, used', id, s, pub);
    case Screen => WithScreenSlots(used, used', id, s, pub);
    case Video => WithVideoSlots(used, used', id, s, pub);
  }

  /** Exactly once for one receiver of a fan-out. */
  lemma FanOutOnce(c: State, id: Id, pub: Pub, r: Id, expected: Level, copy: nat, x: Pub)
    requires OffersOk(c) && Delivered(c) && id in c.sessions && r in c.sessions && r != id
    requires pub.owner == id && pub !in c.used && c.sessions[r].initDone
    requires Current(WithPub(c.sessions[id], pub), c.sessions[r], x)
    ensures Receive(c.sessions[id], c.sessions[r], pub, expected, copy).offered[x] == 1
  {
    var s := c.sessions[r];
    assert SlotsOk(c.used, id, c.sessions[id]);
    ReceiveView(c.sessions[id], s, pub, expected, copy);
    hide SlotsOk, Receive, Accepts;
    if x == pub {
      MeantIsAccepted(c, id, s, pub, expected);
      assert pub !in s.offered;
    } else {
      OthersStayCurrent(c, id, s, pub, x);
      hide Current, WithPub;
    }
  }

  lemma PublishedSession(c: State, id: Id, pub: Pub, expected: Id -> Level, copies: Id -> nat, r: Id)
    requires id in c.sessions && r in c.sessions
    ensures var c' := Publish(c, id, pub, expected, copies);
      && c'.used == c.used + {pub} && c'.sessions.Keys == c.sessions.Keys
      && c'.sessions[r] == if r == id then WithPub(c.sessions[id], pub)
                           else Receive(c.sessions[id], c.sessions[r], pub, expected(r), copies(r))
  {
    hide Receive, WithPub;
  }

  /** What another publisher has current was offered before and is not offered again. */
  lemma OthersStayDelivered(c: State, pub: Pub, p: Id, p': Session, r: Id, r': Session, x: Pub)
    requires OffersOk(c) && Delivered(c) && p in c.sessions && r in c.sessions && p != r && pub !in c.used
    requires SameView(c.sessions[p], p') && r'.av1 == c.sessions[r].av1 && r'.initDone == c.sessions[r].initDone
    requires r'.offered <= c.sessions[r].offered + multiset{pub} && c.sessions[r].offered <= r'.offered
    requires r'.initDone && Current(p', r', x)
    ensures r'.offered[x] == 1
  {
    assert Current(c.sessions[p], c.sessions[r], x);
    CurrentIsNoLayer(c, p, c.sessions[r], x);
    hide Current, SlotsOk;
    assert x != pub;
  }

  lemma PublishDeliveredTo(c: State, id: Id, pub: Pub, expected: Id -> Level, copies: Id -> nat, p: Id, r: Id, x: Pub)
    requires OffersOk(c) && Delivered(c) && id in c.sessions && pub.owner == id && pub !in c.used
    requires p in c.sessions && r in c.sessions && p != r
    requires var m := Publish(c, id, pub, expected, copies).sessions; m[r].initDone && Current(m[p], m[r], x)
    ensures Publish(c, id, pub, expected, copies).sessions[r].offered[x] == 1
  {
    var s, m := c.sessions[id], Publish(c, id, pub, expected, copies).sessions;
    PublishedSession(c, id, pub, expected, copies, p);
    PublishedSession(c, id, pub, expected, copies, r);
    WithPubFields(s, pub);
    ReceiveView(s, c.sessions[p], pub, expected(p), copies(p));
    ReceiveView(s, c.sessions[r], pub, expected(r), copies(r));
    hide Publish, SlotsOk, OffersOk, Delivered, Receive, WithPub, Current, Accepts;
    if p == id {
      SameCurrent(WithPub(s, pub), m[r], c.sessions[r], x);
      FanOutOnce(c, id, pub, r, expected(r), copies(r), x);
    } else {
      OthersStayDelivered(c, pub, p, m[p], r, m[r], x);
    }
  }

  /** What is current for a receiver depends only on its codec. */
  lemma SameCurrent(p: Session, r: Session, r': Session, x: Pub)
    requires r.av1 == r'.av1
    ensures Current(p, r, x) == Current(p, r', x)
  {
  }

  lemma PublishDelivered(c: State, id: Id, pub: Pub, expected: Id -> Level, copies: Id -> nat)
    requires OffersOk(c) && Delivered(c) && id in c.sessions && pub.owner == id && pub !in c.used
    ensures Delivered(Publish(c, id, pub, expected, copies))
  {
    PublishedSession(c, id, pub, expected, copies, id);
    hide Publish, OffersOk, Current;
    var c' := Publish(c, id, pub, expected, copies);
    forall p, r, x | p in c'.sessions && r in c'.sessions && p != r && c'.sessions[r].initDone
                     && Current(c'.sessions[p], c'.sessions[r], x)
      ensures c'.sessions[r].offered[x] == 1
    {
      PublishDeliveredTo(c, id, pub, expected, copies, p, r, x);
    }
  }

  lemma PublishOffersOk(c: State, id: Id, pub: Pub, expected: Id -> Level, copies: Id -> nat)
    requires OffersOk(c) && id in c.sessions && pub.owner == id
    ensures OffersOk(Publish(c, id, pub, expected, copies))
  {
    PublishedSession(c, id, pub, expected, copies, id);
    hide SlotsOk, Receive, WithPub, Publish;
    var c' := Publish(c, id, pub, expected, copies);
    WithPubView(c.used, c'.used, id, c.sessions[id], pub);
    forall r | r in c'.sessions
      ensures SlotsOk(c'.used, r, c'.sessions[r]) && c'.sessions[r].offered <= c.sessions[r].offered + multiset{pub}
    {
      PublishedSession(c, id, pub, expected, copies, r);
      if r != id {
        ReceiveView(c.sessions[id], c.sessions[r], pub, expected(r), copies(r));
        SameViewSlots(c, r, c.sessions[r], c'.sessions[r]);
        SlotsElsewhere(c, c', r, c'.sessions[r]);
      }
    }
  }

  // -------------------------------------------- sessions that act after leaving

  lemma LateInitLedger(c: State, id: Id, order: seq<Id>, copies: Id -> nat)
    requires Ledger(c) && id in c.gone
    requires forall k :: 0 <= k < |order| ==> order[k] in c.sessions
    ensures Ledger(LateInit(c, id, order, copies))
  {
    var us := c.gone[id];
    var us' := OfferAll(us, JoinTracks(c, us, order, copies)).(initDone := true);
    OfferAllOffers(us, JoinTracks(c, us, order, copies));
    assert GoneOk(us);
    hide LedgersOk, GaugeOk, OfferAll, JoinTracks;
    PutGoneLedger(c, id, us', LateInit(c, id, order, copies));
  }

  lemma LateGone(s: Session, pub: Pub)
    requires GoneOk(s)
    ensures GoneOk(WithPub(s, pub)) && WithPub(s, pub).open == s.open
  {
    WithPubFields(s, pub);
    hide WithPub;
  }

  lemma LateLive(c: State, id: Id, pub: Pub, expected: Id -> Level, copies: Id -> nat, r: Id)
    requires LedgersOk(c) && OffersOk(c) && id in c.gone && pub !in c.used && r in c.sessions
    ensures var c' := LatePublish(c, id, pub, expected, copies);
      r in c'.sessions && LiveOk(c'.sessions[r]) && c'.sessions[r].open == c.sessions[r].open
  {
    assert LiveOk(c.sessions[r]) && id !in c.sessions && pub !in c.sessions[r].offered;
    ReceiveOk(c.gone[id], c.sessions[r], pub, expected(r), copies(r));
    hide LiveOk, GoneOk, LedgersOk, OffersOk, WithPub, Receive;
  }

  lemma LatePublishLedger(c: State, id: Id, pub: Pub, expected: Id -> Level, copies: Id -> nat)
    requires Ledger(c) && OffersOk(c) && id in c.gone && pub !in c.used
    ensures Ledger(LatePublish(c, id, pub, expected, copies))
  {
    var p, c' := c.gone[id], LatePublish(c, id, pub, expected, copies);
    assert GoneOk(p) by { hide LiveOk, GaugeOk; }
    LateGone(p, pub);
    LateKeys(c, id, pub, expected, copies);
    forall r | r in c.sessions ensures LiveOk(c'.sessions[r]) && c'.sessions[r].open == c.sessions[r].open {
      hide *;
      LateLive(c, id, pub, expected, copies, r);
    }
    var c1 := c.(gone := c.gone[id := WithPub(p, pub)], gauge := c.gauge + WithPub(p, pub).open - p.open);
    hide LedgersOk, GaugeOk, FannedOut, WithPub;
    PutGoneLedger(c, id, WithPub(p, pub), c1);
    ReplaceLedger(c1, c');
  }

  /** One receiver of a late publication. */
  lemma LateReceiver(c: State, id: Id, pub: Pub, expected: Id -> Level, copies: Id -> nat, r: Id)
    requires id in c.gone && id !in c.sessions && r in c.sessions
    ensures var c' := LatePublish(c, id, pub, expected, copies);
      && c'.used == c.used + {pub} && c'.sessions.Keys == c.sessions.Keys
      && SameView(c.sessions[r], c'.sessions[r]) && c'.sessions[r].initDone == c.sessions[r].initDone
      && c.sessions[r].offered <= c'.sessions[r].offered <= c.sessions[r].offered + multiset{pub}
  {
    ReceiveView(c.gone[id], c.sessions[r], pub, expected(r), copies(r));
    hide Receive, WithPub;
  }

  lemma LatePublishOffersOk(c: State, id: Id, pub: Pub, expected: Id -> Level, copies: Id -> nat)
    requires OffersOk(c) && id in c.gone && id !in c.sessions
    ensures OffersOk(LatePublish(c, id, pub, expected, copies))
  {
    var c' := LatePublish(c, id, pub, expected, copies);
    hide SlotsOk, LatePublish, SameView;
    assert c'.sessions.Keys == c.sessions.Keys by { hide *; LateKeys(c, id, pub, expected, copies); }
    forall r | r in c'.sessions
      ensures SlotsOk(c'.used, r, c'.sessions[r]) && c'.sessions[r].offered <= c.sessions[r].offered + multiset{pub}
      ensures c'.used == c.used + {pub}
    {
      LateReceiver(c, id, pub, expected, copies, r);
      SameViewSlots(c, r, c.sessions[r], c'.sessions[r]);
      SlotsElsewhere(c, c', r, c'.sessions[r]);
    }
  }

  lemma LateKeys(c: State, id: Id, pub: Pub, expected: Id -> Level, copies: Id -> nat)
    requires id in c.gone
    ensures LatePublish(c, id, pub, expected, copies).sessions.Keys == c.sessions.Keys
  {
    hide Receive, WithPub;
  }

  lemma LatePublishDelivered(c: State, id: Id, pub: Pub, expected: Id -> Level, copies: Id -> nat)
    requires OffersOk(c) && Delivered(c) && id in c.gone && id !in c.sessions && pub !in c.used
    ensures Delivered(LatePublish(c, id, pub, expected, copies))
  {
    var c' := LatePublish(c, id, pub, expected, copies);
    LateKeys(c, id, pub, expected, copies);
    forall p, r, x | p in c'.sessions && r in c'.sessions && p != r && c'.sessions[r].initDone
                     && Current(c'.sessions[p], c'.sessions[r], x)
      ensures c'.sessions[r].offered[x] == 1
    {
      LateReceiver(c, id, pub, expected, copies, p);
      LateReceiver(c, id, pub, expected, copies, r);
      hide *;
      OthersStayDelivered(c, pub, p, c'.sessions[p], r, c'.sessions[r], x);
    }
  }

  // --------------------------------------- what departed sessions still publish

  /** Nobody who has left is touched. */
  lemma GoneSlotsStay(c: State, c': State)
    requires GoneSlotsOk(c) && c'.gone == c.gone && c.used <= c'.used
    ensures GoneSlotsOk(c')
  {
    hide SlotsOk;
    forall r | r in c'.gone ensures SlotsOk(c'.used, r, c'.gone[r]) {
      SlotsElsewhere(c, c', r, c.gone[r]);
    }
  }

  /** One session that has left, or is leaving, is put in place. */
  lemma GoneSlotsPut(c: State, id: Id, s: Session, c': State)
    requires GoneSlotsOk(c) && c'.gone == c.gone[id := s] && c.used <= c'.used && SlotsOk(c'.used, id, s)
    ensures GoneSlotsOk(c')
  {
    hide SlotsOk;
    forall r | r in c'.gone ensures SlotsOk(c'.used, r, c'.gone[r]) {
      if r != id {
        SlotsElsewhere(c, c', r, c.gone[r]);
      }
    }
  }

  lemma JoinGone(c: State, id: Id, av1: bool)
    requires GoneSlotsOk(c)
    ensures GoneSlotsOk(Join(c, id, av1))
  {
    hide SlotsOk, NewSession;
    GoneSlotsStay(c, Join(c, id, av1));
  }

  lemma PublishGone(c: State, id: Id, pub: Pub, expected: Id -> Level, copies: Id -> nat)
    requires GoneSlotsOk(c) && id in c.sessions
    ensures GoneSlotsOk(Publish(c, id, pub, expected, copies))
  {
    hide SlotsOk, WithPub, Receive;
    GoneSlotsStay(c, Publish(c, id, pub, expected, copies));
  }

  lemma ScreenOffGone(c: State, id: Id)
    requires GoneSlotsOk(c)
    ensures GoneSlotsOk(ScreenOff(c, id))
  {
    hide SlotsOk, WithoutScreen, DropScreen;
    GoneSlotsStay(c, ScreenOff(c, id));
  }

  lemma LateInitGone(c: State, id: Id, order: seq<Id>, copies: Id -> nat)
    requires GoneSlotsOk(c) && id in c.gone && forall k :: 0 <= k < |order| ==> order[k] in c.sessions
    ensures GoneSlotsOk(LateInit(c, id, order, copies))
  {
    hide SlotsOk, OfferAll, JoinTracks;
    var us, ts := c.gone[id], JoinTracks(c, c.gone[id], order, copies);
    OfferAllView(us, ts);
    SameViewSlots(c, id, us, OfferAll(us, ts).(initDone := true));
    GoneSlotsPut(c, id, OfferAll(us, ts).(initDone := true), LateInit(c, id, order, copies));
  }

  lemma LatePublishGone(c: State, id: Id, pub: Pub, expected: Id -> Level, copies: Id -> nat)
    requires GoneSlotsOk(c) && id in c.gone && pub.owner == id
    ensures GoneSlotsOk(LatePublish(c, id, pub, expected, copies))
  {
    hide SlotsOk, WithPub, Receive;
    var c' := LatePublish(c, id, pub, expected, copies);
    WithPubView(c.used, c'.used, id, c.gone[id], pub);
    GoneSlotsPut(c, id, WithPub(c.gone[id], pub), c');
  }

  lemma WorkGone(c: State, id: Id, lost: bool, outcome: Outcome)
    requires GoneSlotsOk(c) && CanWorkOf(c, id, outcome)
    ensures GoneSlotsOk(WorkOf(c, id, lost, outcome))
  {
    hide SlotsOk, Work, SameView;
    if id in c.sessions {
      GoneSlotsStay(c, WorkOf(c, id, lost, outcome));
    } else {
      WorkView(c.gone[id], lost, outcome);
      SameViewSlots(c, id, c.gone[id], Work(c.gone[id], lost, outcome));
      GoneSlotsPut(c, id, Work(c.gone[id], lost, outcome), WorkOf(c, id, lost, outcome));
    }
  }

  lemma PutMemberGone(c: State, id: Id, s': Session, c': State)
    requires GoneSlotsOk(c) && IsMember(c, id) && SameView(Member(c, id), s')
    requires c' == PutMember(c, id, s').(switching := c'.switching)
    ensures GoneSlotsOk(c')
  {
    hide SlotsOk, SameView;
    if id in c.sessions {
      GoneSlotsStay(c, c');
    } else {
      SameViewSlots(c, id, c.gone[id], s');
      GoneSlotsPut(c, id, s', c');
    }
  }

  lemma SwitchOutGone(c: State, id: Id, pub: Pub, copy: nat)
    requires GoneSlotsOk(c) && CanSwitch(c, id, pub)
    ensures GoneSlotsOk(SwitchOutOf(c, id, pub, copy))
  {
    var s := Member(c, id);
    EnqueueFields(s, Remove(s.senders[s.screenSender.value]));
    hide GoneSlotsOk, Enqueue, SameView;
    PutMemberGone(c, id, SwitchOut(s), SwitchOutOf(c, id, pub, copy));
  }

  lemma SwitchInGone(c: State, id: Id)
    requires GoneSlotsOk(c) && CanSwitchIn(c, id)
    ensures GoneSlotsOk(SwitchInOf(c, id))
  {
    var s, t := Member(c, id), c.switching[id];
    EnqueueFields(s, Add(t));
    hide GoneSlotsOk, Enqueue;
    PutMemberGone(c, id, Offer(s, t), SwitchInOf(c, id));
  }

  lemma CloseGone(c: State, id: Id)
    requires OffersOk(c) && GoneSlotsOk(c) && id in c.sessions
    ensures GoneSlotsOk(Close(c, id))
  {
    hide SlotsOk, AfterDeparture, Published, Staying;
    SameViewSlots(c, id, c.sessions[id], Departed(c.sessions[id]));
    GoneSlotsPut(c, id, Departed(c.sessions[id]), Close(c, id));
  }
}
