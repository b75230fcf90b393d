/** What every section of the call keeps about one session: the ledger of its senders,
    its received tracks and its share of the outgoing-tracks gauge. */
module CallSessions {
  import opened CallModel
  import opened Wrappers

  predicate Audio(t: Track) { IsAudio(t.pub.kind) }

  function Bit(b: bool): nat { if b then 1 else 0 }

  predicate Carries(s: Session, t: Track) { Some(t) in s.senders }

  predicate IsAdding(s: Session, t: Track) { s.worker.Adding? && s.worker.track == t }

  predicate IsHolding(s: Session, t: Track) { s.worker.Holding? && s.worker.action == Add(t) }

  /** An add of `t` is queued, or taken and waiting for the signaling lock. */
  predicate IsComing(s: Session, t: Track) { Add(t) in s.queue || IsHolding(s, t) }

  /** Adds of `t` that are queued, taken, in negotiation, or done. */
  function Spent(s: Session, t: Track): nat {
    multiset(s.queue)[Add(t)] + Bit(IsHolding(s, t)) + Bit(IsAdding(s, t)) + Bit(t in s.rx)
  }

  /** A receiver starts empty and stays so until its tracks are initialised. */
  ghost predicate Fresh(s: Session) {
    && s.offered == multiset{} && s.queue == [] && s.senders == [] && s.rx == {}
    && s.worker == Idle && s.screenSender == None && s.open == 0
  }

  /** Senders, received tracks and the negotiation in flight describe the same tracks. Only
      an audio sender can be detached while its track still counts as received. */
  ghost predicate SendersOk(s: Session) {
    && (forall i, j :: 0 <= i < j < |s.senders| && s.senders[i].Some? ==> s.senders[i] != s.senders[j])
    && (forall i :: 0 <= i < |s.senders| && s.senders[i].Some? ==>
          s.senders[i].value in s.rx || s.worker == Adding(s.senders[i].value, i))
    && (s.worker.Adding? ==>
          && s.worker.slot < |s.senders| && s.worker.track !in s.rx
          && (s.senders[s.worker.slot] == Some(s.worker.track)
              || (s.senders[s.worker.slot] == None && Audio(s.worker.track))))
    && (forall t :: t in s.rx && !Audio(t) ==> Carries(s, t))
    && (s.screenSender.Some? ==> s.screenSender.value < |s.senders|)
  }

  /** Audio is added at most as often as it was offered, and offered at most once. */
  ghost predicate AudioOnce(s: Session) {
    && (forall p: Pub :: IsAudio(p.kind) ==> s.offered[p] <= 1)
    && (forall t :: Audio(t) ==> Spent(s, t) <= s.offered[t.pub])
  }

  /** The session's share of the gauge. */
  ghost predicate Counted(s: Session) { s.open == |s.rx| + Bit(s.worker.Adding?) }

  ghost predicate LiveOk(s: Session) {
    && SendersOk(s) && AudioOnce(s) && Counted(s)
    && (!s.initDone ==> Fresh(s))
  }

  /** Attached senders. */
  function Attached(s: Session): int { |s.senders| - multiset(s.senders)[None] }

  /** After the session has left the call, what is left open covers every attached sender
      and a negotiation whose sender was detached; so no decrement lacks an increment. */
  ghost predicate GoneOk(s: Session) {
    && (s.worker.Adding? ==> s.worker.slot < |s.senders|)
    && s.open >= Attached(s) + Bit(s.worker.Adding? && s.worker.slot < |s.senders| && s.senders[s.worker.slot] == None)
  }

  lemma AttachedNonNegative(s: Session)
    ensures Attached(s) >= 0
  {
    assert multiset(s.senders)[None] <= |multiset(s.senders)| by {
      var m := multiset(s.senders);
      assert m[None := 0] <= m && |m| == |m[None := 0]| + m[None];
    }
  }

  // ------------------------------------------------------------------ queueing

  /** The parts of a session that queueing leaves alone. */
  ghost predicate SameTracks(s: Session, s': Session) {
    && s'.senders == s.senders && s'.rx == s.rx && s'.worker == s.worker
    && s'.screenSender == s.screenSender && s'.open == s.open && s'.initDone == s.initDone
  }

  lemma SameTracksOk(s: Session, s': Session)
    requires SendersOk(s) && Counted(s) && SameTracks(s, s')
    ensures SendersOk(s') && Counted(s')
  {
  }

  lemma EnqueueRemoveOk(s: Session, target: Option<Track>)
    requires LiveOk(s) && s.initDone
    ensures LiveOk(Enqueue(s, Remove(target)))
  {
    SameTracksOk(s, Enqueue(s, Remove(target)));
  }

  lemma SpentAfterOffer(s: Session, t: Track, u: Track)
    ensures Spent(Offer(s, t), u) <= Spent(s, u) + Bit(t == u)
  {
  }

  lemma OfferAudio(s: Session, t: Track)
    requires AudioOnce(s) && (Audio(t) ==> s.offered[t.pub] == 0)
    ensures AudioOnce(Offer(s, t))
  {
    var s' := Offer(s, t);
    forall u | Audio(u) ensures Spent(s', u) <= s'.offered[u.pub] {
      assert Spent(s, u) <= s.offered[u.pub];
      SpentAfterOffer(s, t, u);
    }
  }

  lemma OfferOk(s: Session, t: Track)
    requires SendersOk(s) && AudioOnce(s) && Counted(s)
    requires Audio(t) ==> s.offered[t.pub] == 0
    ensures SendersOk(Offer(s, t)) && AudioOnce(Offer(s, t)) && Counted(Offer(s, t))
  {
    hide AudioOnce, SendersOk, Counted, Spent;
    OfferAudio(s, t);
    SameTracksOk(s, Offer(s, t));
  }

  // ------------------------------------------------------------- track goroutine

  /** Taking the next action, and being done with it. */
  function Pop(s: Session): Session
    requires s.queue != []
  {
    s.(queue := s.queue[1..], worker := Holding(s.queue[0]))
  }

  function LetGo(s: Session): Session { s.(worker := Idle) }

  lemma PopSpent(s: Session, u: Track)
    requires s.queue != [] && s.worker.Idle?
    ensures Spent(Pop(s), u) == Spent(s, u)
  {
    assert s.queue == [s.queue[0]] + s.queue[1..];
  }

  /** Neither before nor after a negotiation is in flight. */
  lemma NotAddingOk(s: Session, s': Session)
    requires SendersOk(s) && Counted(s) && !s.worker.Adding? && !s'.worker.Adding?
    requires s'.senders == s.senders && s'.rx == s.rx && s'.screenSender == s.screenSender && s'.open == s.open
    ensures SendersOk(s') && Counted(s')
  {
  }

  lemma PopOk(s: Session)
    requires LiveOk(s) && s.initDone && s.queue != [] && s.worker.Idle?
    ensures LiveOk(Pop(s))
  {
    NotAddingOk(s, Pop(s));
    forall u | Audio(u) ensures Spent(Pop(s), u) <= s.offered[u.pub] {
      assert Spent(s, u) <= s.offered[u.pub];
      PopSpent(s, u);
    }
  }

  lemma LetGoOk(s: Session)
    requires LiveOk(s) && s.initDone && s.worker.Holding?
    ensures LiveOk(LetGo(s))
    ensures forall t :: s.worker.action == Add(t) && Audio(t) ==> Spent(LetGo(s), t) == 0 && s.offered[t.pub] == 1
  {
    NotAddingOk(s, LetGo(s));
    forall u | Audio(u)
      ensures Spent(LetGo(s), u) + Bit(IsHolding(s, u)) == Spent(s, u) <= s.offered[u.pub] <= 1
    {
      assert Spent(s, u) <= s.offered[u.pub];
    }
  }

  /** The increment of the gauge is for a track not counted yet. */
  lemma BeginAddOk(s: Session, t: Track)
    requires LiveOk(s) && s.initDone && s.worker.Idle?
    requires Audio(t) ==> Spent(s, t) == 0 && s.offered[t.pub] == 1
    ensures LiveOk(BeginAdd(s, t))
  {
    var s' := BeginAdd(s, t);
    if s' != s {
      assert !Carries(s, t);
      assert t !in s.rx;
      forall u | u in s'.rx && !Audio(u) ensures Carries(s', u) {
        assert Carries(s, u);
      }
      forall u | Audio(u) ensures Spent(s', u) <= s'.offered[u.pub] {
        assert Spent(s, u) <= s.offered[u.pub];
        assert Spent(s', u) <= Spent(s, u) + Bit(u == t);
      }
    }
  }

  /** Detaching the sender at `i` together with the track's entry. */
  lemma DetachOk(s: Session, i: nat, t: Track, s': Session)
    requires SendersOk(s) && s.worker.Idle? && i < |s.senders| && s.senders[i] == Some(t)
    requires s'.senders == s.senders[i := None] && s'.rx == s.rx - {t} && s'.worker == s.worker
    requires s'.screenSender == s.screenSender || s'.screenSender == None
    ensures SendersOk(s') && t in s.rx
  {
    forall u | u in s'.rx && !Audio(u) ensures Carries(s', u) {
      assert Carries(s, u);
      var j :| 0 <= j < |s.senders| && s.senders[j] == Some(u);
      assert s'.senders[j] == Some(u);
    }
  }

  lemma DoRemoveOk(s: Session, target: Option<Track>)
    requires LiveOk(s) && s.initDone && s.worker.Idle?
    ensures LiveOk(DoRemove(s, target))
  {
    if target.Some? && FindSender(s.senders, target.value) < |s.senders| {
      var s' := DoRemove(s, target);
      DetachOk(s, FindSender(s.senders, target.value), target.value, s');
      forall u | Audio(u) ensures Spent(s', u) <= s'.offered[u.pub] {
        assert Spent(s, u) <= s.offered[u.pub];
      }
    }
  }

  lemma AnsweredSenders(s: Session, s': Session)
    requires SendersOk(s) && s.worker.Adding? && s' == Work(s, false, Answered)
    ensures SendersOk(s')
  {
    var t, slot := s.worker.track, s.worker.slot;
    forall u | u in s'.rx && !Audio(u) ensures Carries(s', u) {
      if u == t {
        assert s'.senders[slot] == Some(u);
      } else {
        assert Carries(s, u);
      }
    }
  }

  lemma FailedSenders(s: Session, s': Session)
    requires SendersOk(s) && s.worker.Adding? && s' == Work(s, false, Failed)
    ensures SendersOk(s')
  {
    var t, slot := s.worker.track, s.worker.slot;
    forall u | u in s'.rx && !Audio(u) ensures Carries(s', u) {
      assert Carries(s, u);
      var j :| 0 <= j < |s.senders| && s.senders[j] == Some(u);
      assert s'.senders[j] == Some(u);
    }
  }

  lemma FinishAddOk(s: Session, outcome: Outcome)
    requires LiveOk(s) && s.initDone && s.worker.Adding? && outcome != Stopped
    ensures LiveOk(Work(s, false, outcome))
  {
    var s' := Work(s, false, outcome);
    if outcome == Answered {
      AnsweredSenders(s, s');
    } else {
      FailedSenders(s, s');
    }
    forall u | Audio(u) ensures Spent(s', u) <= s'.offered[u.pub] {
      assert Spent(s, u) <= s.offered[u.pub];
      assert Spent(s', u) <= Spent(s, u);
    }
  }

  /** Every step of the track goroutine of a session in the call. */
  lemma WorkOk(s: Session, lost: bool, outcome: Outcome)
    requires LiveOk(s) && CanWork(s) && outcome != Stopped
    ensures LiveOk(Work(s, lost, outcome))
    ensures Work(s, lost, outcome).offered == s.offered
  {
    match s.worker
    case Idle =>
      PopOk(s);
    case Holding(a) =>
      LetGoOk(s);
      hide LiveOk, BeginAdd, DoRemove;
      if !lost && a.Add? {
        BeginAddOk(LetGo(s), a.track);
        BeginAddOffered(LetGo(s), a.track);
      } else if !lost {
        DoRemoveOk(LetGo(s), a.target);
        DoRemoveOffered(LetGo(s), a.target);
      }
    case Adding(_, _) =>
      FinishAddOk(s, outcome);
  }

  lemma BeginAddOffered(s: Session, t: Track)
    ensures BeginAdd(s, t).offered == s.offered
  {
  }

  lemma DoRemoveOffered(s: Session, target: Option<Track>)
    ensures DoRemove(s, target).offered == s.offered
  {
  }

  // ----------------------------------------------------- joining and publishing

  /** A change that concerns neither queue nor tracks. */
  lemma UnrelatedOk(s: Session, s': Session)
    requires LiveOk(s) && s'.initDone == s.initDone
    requires s'.senders == s.senders && s'.rx == s.rx && s'.worker == s.worker && s'.open == s.open
    requires s'.queue == s.queue && s'.offered == s.offered
    requires s'.screenSender == s.screenSender || s'.screenSender == None
    ensures LiveOk(s')
  {
    assert SendersOk(s') by {
      forall u | u in s'.rx && !Audio(u) ensures Carries(s', u) {
        assert Carries(s, u);
      }
    }
    forall u | Audio(u) ensures Spent(s', u) <= s'.offered[u.pub] {
      assert Spent(s, u) <= s.offered[u.pub];
    }
  }

  lemma WithPubFields(s: Session, pub: Pub)
    ensures var s' := WithPub(s, pub);
      && s'.senders == s.senders && s'.rx == s.rx && s'.worker == s.worker && s'.open == s.open
      && s'.queue == s.queue && s'.offered == s.offered && s'.screenSender == s.screenSender
      && s'.initDone == s.initDone && s'.av1 == s.av1
  {
  }

  lemma WithPubOk(s: Session, pub: Pub)
    requires LiveOk(s)
    ensures LiveOk(WithPub(s, pub)) && WithPub(s, pub).open == s.open
  {
    WithPubFields(s, pub);
    hide WithPub, LiveOk;
    UnrelatedOk(s, WithPub(s, pub));
  }

  function PubSeq(ts: seq<Track>): (ps: seq<Pub>)
    ensures |ps| == |ts| && forall i :: 0 <= i < |ts| ==> ps[i] == ts[i].pub
  {
    seq(|ts|, i requires 0 <= i < |ts| => ts[i].pub)
  }

  function Pubs(ts: seq<Track>): multiset<Pub> { multiset(PubSeq(ts)) }

  lemma PubsConcat(a: seq<Track>, b: seq<Track>)
    ensures Pubs(a + b) == Pubs(a) + Pubs(b)
  {
    assert PubSeq(a + b) == PubSeq(a) + PubSeq(b);
  }

  lemma PubsOfLast(ts: seq<Track>)
    requires ts != []
    ensures Pubs(ts) == Pubs(ts[..|ts| - 1]) + multiset{ts[|ts| - 1].pub}
  {
    var init, last := ts[..|ts| - 1], ts[|ts| - 1];
    assert ts == init + [last];
    PubsConcat(init, [last]);
    assert PubSeq([last]) == [last.pub];
  }

  lemma {:induction false} OfferAllOffers(s: Session, ts: seq<Track>)
    ensures OfferAll(s, ts).offered == s.offered + Pubs(ts) && SameTracks(s, OfferAll(s, ts))
  {
    if ts != [] {
      var init, last := ts[..|ts| - 1], ts[|ts| - 1];
      OfferAllOffers(s, init);
      PubsOfLast(ts);
    } else {
      assert PubSeq(ts) == [];
    }
  }

  /** The last of the tracks was not offered before, if none is sent twice. */
  lemma LastIsNew(s: Session, ts: seq<Track>)
    requires s.offered == multiset{} && ts != []
    requires forall p: Pub :: IsAudio(p.kind) ==> Pubs(ts)[p] <= 1
    ensures forall p: Pub :: IsAudio(p.kind) ==> Pubs(ts[..|ts| - 1])[p] <= 1
    ensures Audio(ts[|ts| - 1]) ==> OfferAll(s, ts[..|ts| - 1]).offered[ts[|ts| - 1].pub] == 0
  {
    hide OfferAll, Pubs, SameTracks, IsAudio;
    OfferAllOffers(s, ts[..|ts| - 1]);
    PubsOfLast(ts);
  }

  lemma {:induction false} OfferAllOk(s: Session, ts: seq<Track>)
    requires SendersOk(s) && AudioOnce(s) && Counted(s) && s.offered == multiset{}
    requires forall p: Pub :: IsAudio(p.kind) ==> Pubs(ts)[p] <= 1
    ensures SendersOk(OfferAll(s, ts)) && AudioOnce(OfferAll(s, ts)) && Counted(OfferAll(s, ts))
  {
    hide SendersOk, AudioOnce, Counted, Pubs, Offer, Audio;
    if ts != [] {
      LastIsNew(s, ts);
      OfferAllOk(s, ts[..|ts| - 1]);
      OfferOk(OfferAll(s, ts[..|ts| - 1]), ts[|ts| - 1]);
    }
  }

  // -------------------------------------------------------------- screen sharing

  lemma DropScreenOk(s: Session)
    requires LiveOk(s)
    ensures LiveOk(DropScreen(s)) && DropScreen(s).screenSender == None && DropScreen(s).open == s.open
  {
    if s.screenSender.Some? {
      var target := if s.screenSender.value < |s.senders| then s.senders[s.screenSender.value] else None;
      EnqueueRemoveOk(s, target);
      UnrelatedOk(Enqueue(s, Remove(target)), DropScreen(s));
    }
  }

  lemma SwitchOutOk(s: Session)
    requires LiveOk(s) && OnScreen(s)
    ensures LiveOk(SwitchOut(s))
  {
    EnqueueRemoveOk(s, s.senders[s.screenSender.value]);
  }

  lemma SwitchInOk(s: Session, t: Track)
    requires LiveOk(s) && s.initDone && !IsAudio(t.pub.kind)
    ensures LiveOk(Offer(s, t))
  {
    OfferOk(s, t);
  }

  // -------------------------------------------------------------------- leaving

  /** What is left of a sender slot once the publisher of `pubs` is gone. */
  function SlotAfter(slot: Option<Track>, pubs: set<Pub>): Option<Track> {
    if slot.Some? && slot.value.pub in pubs && Audio(slot.value) then None else slot
  }

  /** The exact effect of the first `n` steps of the pass on a receiver: audio senders of
      the departed publisher are detached, each of its video senders gets a queued remove
      unless the queue is full, every other sender is untouched, and nothing else is queued. */
  ghost predicate SweptTo(s: Session, pubs: set<Pub>, n: nat, s': Session)
    requires n <= |s.senders|
  {
    && |s'.senders| == |s.senders|
    && (forall i :: 0 <= i < |s.senders| ==>
          s'.senders[i] == if i < n then SlotAfter(s.senders[i], pubs) else s.senders[i])
    && s.queue <= s'.queue && |s'.queue| <= |s.queue| + n
    && (forall i :: 0 <= i < n && s'.senders[i].Some? && s'.senders[i].value.pub in pubs
          ==> Remove(s'.senders[i]) in s'.queue || |s'.queue| >= TracksChSize)
    && (forall k :: |s.queue| <= k < |s'.queue| ==>
          s'.queue[k].Remove? && s'.queue[k].target.Some? && s'.queue[k].target.value.pub in pubs)
    && s' == s.(senders := s'.senders, queue := s'.queue)
  }

  lemma SweepOneExact(s: Session, pubs: set<Pub>, n: nat, s': Session)
    requires n < |s.senders| && SweptTo(s, pubs, n, s')
    ensures SweptTo(s, pubs, n + 1, SweepOne(s', pubs, n))
  {
    var s'' := SweepOne(s', pubs, n);
    assert s'.senders[n] == s.senders[n];
    if s''.queue != s'.queue {
      assert s''.queue == s'.queue + [Remove(s'.senders[n])];
      assert s''.queue[|s'.queue|] == Remove(s'.senders[n]);
    }
  }

  lemma {:induction false} SweepExact(s: Session, pubs: set<Pub>, n: nat)
    requires n <= |s.senders|
    ensures SweptTo(s, pubs, n, Sweep(s, pubs, n))
  {
    if n > 0 {
      hide SweptTo, SweepOne;
      SweepExact(s, pubs, n - 1);
      SweepOneExact(s, pubs, n - 1, Sweep(s, pubs, n - 1));
    } else {
      hide SlotAfter;
    }
  }

  lemma SweptSenders(s: Session, pubs: set<Pub>, n: nat, s': Session)
    requires SendersOk(s) && n <= |s.senders| && SweptTo(s, pubs, n, s')
    ensures SendersOk(s')
  {
    forall u | u in s'.rx && !Audio(u) ensures Carries(s', u) {
      assert Carries(s, u);
      var j :| 0 <= j < |s.senders| && s.senders[j] == Some(u);
      assert s'.senders[j] == Some(u);
    }
  }

  lemma SweptAudio(s: Session, pubs: set<Pub>, n: nat, s': Session)
    requires AudioOnce(s) && n <= |s.senders| && SweptTo(s, pubs, n, s')
    ensures AudioOnce(s')
  {
    var ext := s'.queue[|s.queue|..];
    assert s'.queue == s.queue + ext;
    forall u | Audio(u) ensures Spent(s', u) <= s'.offered[u.pub] {
      assert Spent(s, u) <= s.offered[u.pub];
      assert Add(u) !in ext;
    }
  }

  lemma SweptOk(s: Session, pubs: set<Pub>, n: nat, s': Session)
    requires LiveOk(s) && n <= |s.senders| && SweptTo(s, pubs, n, s')
    ensures LiveOk(s') && s'.initDone == s.initDone
  {
    SweptSenders(s, pubs, n, s');
    SweptAudio(s, pubs, n, s');
  }

  lemma AfterDepartureOk(s: Session, pubs: set<Pub>, wasSharer: bool)
    requires LiveOk(s)
    ensures LiveOk(AfterDeparture(s, pubs, wasSharer))
    ensures AfterDeparture(s, pubs, wasSharer).open == s.open
  {
    var s' := if wasSharer then s.(screenSender := None) else s;
    UnrelatedOk(s, s');
    SweepExact(s', pubs, |s'.senders|);
    SweptOk(s', pubs, |s'.senders|, Sweep(s', pubs, |s'.senders|));
  }

  lemma {:induction false} NoneCount(senders: seq<Option<Track>>)
    requires forall i :: 0 <= i < |senders| ==> senders[i] == None
    ensures multiset(senders)[None] == |senders|
  {
    if senders != [] {
      assert senders == senders[..|senders| - 1] + [senders[|senders| - 1]];
      NoneCount(senders[..|senders| - 1]);
    }
  }

  lemma DepartedOk(s: Session)
    requires LiveOk(s)
    ensures GoneOk(Departed(s))
  {
    NoneCount(Departed(s).senders);
  }

  lemma NotAddingGone(s: Session, s': Session)
    requires GoneOk(s) && !s.worker.Adding? && !s'.worker.Adding?
    requires s'.senders == s.senders && s'.open == s.open
    ensures GoneOk(s')
  {
  }

  lemma GoneAddOk(s: Session, t: Track)
    requires GoneOk(s) && s.worker.Idle?
    ensures GoneOk(BeginAdd(s, t))
  {
    var s' := BeginAdd(s, t);
    if s'.worker.Adding? {
      assert multiset(s'.senders)[None] == multiset(s.senders)[None];
    }
  }

  lemma GoneRemoveOk(s: Session, target: Option<Track>)
    requires GoneOk(s) && s.worker.Idle?
    ensures GoneOk(DoRemove(s, target))
  {
    if target.Some? {
      var i := FindSender(s.senders, target.value);
      if i < |s.senders| {
        assert multiset(s.senders[i := None])[None] == multiset(s.senders)[None] + 1;
      }
    }
  }

  lemma GoneFinishOk(s: Session, outcome: Outcome)
    requires GoneOk(s) && CanWork(s) && s.worker.Adding?
    ensures GoneOk(Work(s, false, outcome))
  {
    var i := s.worker.slot;
    assert multiset(s.senders[i := None])[None] == multiset(s.senders)[None] + if s.senders[i] == None then 0 else 1;
  }

  /** Every step of the track goroutine of a session that has left. */
  lemma GoneWorkOk(s: Session, lost: bool, outcome: Outcome)
    requires GoneOk(s) && CanWork(s)
    ensures GoneOk(Work(s, lost, outcome)) && Work(s, lost, outcome).open >= 0
  {
    hide GoneOk, BeginAdd, DoRemove;
    match s.worker {
      case Idle =>
        NotAddingGone(s, Pop(s));
      case Holding(a) =>
        NotAddingGone(s, LetGo(s));
        if a.Add? {
          GoneAddOk(LetGo(s), a.track);
        } else {
          GoneRemoveOk(LetGo(s), a.target);
        }
      case Adding(_, _) =>
        GoneFinishOk(s, outcome);
    }
    GoneOpen(Work(s, lost, outcome));
  }

  lemma GoneOpen(s: Session)
    requires GoneOk(s)
    ensures s.open >= 0
  {
    AttachedNonNegative(s);
  }
}
