/** The call as the object the server mutates: each method is one critical section, written
    with the loops of the code and free in the order in which it visits a map, and is
    proved to do what the corresponding function of CallModel says. */
module CallObject {
  import opened CallModel
  import opened CallSessions
  import opened Wrappers

  class Call {
    var sessions: map<Id, Session>
    var gone: map<Id, Session>
    var screenSession: Option<Id>
    var gauge: int
    var used: set<Pub>
    var switching: map<Id, Track>

    ghost function State(): State
      reads this
    {
      CallModel.State.State(sessions, gone, screenSession, gauge, used, switching)
    }

    /** The sharer is or was in the call. */
    ghost predicate Valid()
      reads this
    {
      screenSession.Some? ==> screenSession.value in sessions || screenSession.value in gone
    }

    constructor ()
      ensures Valid() && Initial(State())
    {
      sessions, gone, screenSession, gauge, used, switching := map[], map[], None, 0, {}, map[];
    }

    method AddSession(id: Id, av1: bool) returns (added: bool)
      requires Valid()
      modifies this
      ensures Valid() && State() == Join(old(State()), id, av1)
      ensures added <==> id !in old(sessions)
    {
      if id in sessions {
        return false;
      }
      sessions := sessions[id := NewSession(av1)];
      added := true;
    }

    method SetScreenSession(id: Id) returns (ok: bool)
      requires Valid() && IsMember(State(), id)
      modifies this
      ensures Valid() && State() == ScreenOn(old(State()), id)
      ensures ok <==> old(screenSession) == None
    {
      if screenSession == None {
        screenSession := Some(id);
        return true;
      }
      ok := false;
    }

    /** The loop of clearScreenState; its result does not depend on when it meets the owner. */
    method ClearScreens(id: Id)
      requires screenSession == Some(id)
      modifies this`sessions, this`screenSession
      ensures screenSession == if id in sessions then None else Some(id)
      ensures sessions.Keys == old(sessions).Keys
      ensures forall r :: r in sessions ==>
        sessions[r] == if r == id then WithoutScreen(old(sessions)[r]) else DropScreen(old(sessions)[r])
    {
      hide WithoutScreen, DropScreen;
      var rest := sessions.Keys;
      while rest != {}
        invariant rest <= old(sessions).Keys == sessions.Keys
        invariant screenSession == if id in rest || id !in sessions then Some(id) else None
        invariant forall r :: r in sessions ==>
          sessions[r] == if r in rest then old(sessions)[r]
                         else if r == id then WithoutScreen(old(sessions)[r])
                         else DropScreen(old(sessions)[r])
      {
        var r :| r in rest;
        if screenSession == Some(r) {
          sessions := sessions[r := WithoutScreen(sessions[r])];
          screenSession := None;
        } else {
          sessions := sessions[r := DropScreen(sessions[r])];
        }
        rest := rest - {r};
      }
    }

    method ClearScreenState(id: Id) returns (ok: bool)
      requires Valid()
      modifies this
      ensures Valid() && State() == ScreenOff(old(State()), id)
      ensures ok <==> old(screenSession) == Some(id)
      ensures ok ==> screenSession == if id in sessions then None else Some(id)
    {
      hide WithoutScreen, DropScreen;
      if screenSession == None || screenSession != Some(id) {
        return false;
      }
      ClearScreens(id);
      assert sessions == ScreenOff(old(State()), id).sessions;
      ok := true;
    }

    /** What OnTrack does about one other session of the call. */
    static method FanOut(p: Session, r: Session, pub: Pub, expected: Level, copy: nat) returns (r': Session)
      ensures r' == Receive(p, r, pub, expected, copy)
    {
      if !r.initDone {
        return r;
      }
      if !IsAudio(pub.kind) {
        if LevelOf(pub) != (if pub.rid.Some? then expected else Low) {
          return r;
        }
        if pub.mime == VP8 && p.av1 && r.av1 {
          return r;
        } else if pub.mime == AV1 && !r.av1 {
          return r;
        }
      }
      r' := Offer(r, Track(pub, copy));
    }

    /** The fan-out loop. */
    method FanOutAll(id: Id, p: Session, pub: Pub, expected: Id -> Level, copies: Id -> nat)
      modifies this`sessions
      ensures sessions == FannedOut(old(sessions), id, p, pub, expected, copies)
    {
      hide Receive;
      var rest := sessions.Keys - {id};
      while rest != {}
        invariant rest <= sessions.Keys == old(sessions).Keys && id !in rest
        invariant forall r :: r in sessions ==>
          sessions[r] == if r == id || r in rest then old(sessions)[r]
                         else Receive(p, old(sessions)[r], pub, expected(r), copies(r))
      {
        var r :| r in rest;
        rest := rest - {r};
        var s := FanOut(p, sessions[r], pub, expected(r), copies(r));
        sessions := sessions[r := s];
      }
    }

    /** The publishing half of OnTrack: record the track, then fan it out, be it that the session
        has left the call in the meantime. */
    method OnTrack(id: Id, pub: Pub, expected: Id -> Level, copies: Id -> nat)
      requires Valid() && (id in sessions || id in gone)
      modifies this
      ensures Valid()
      ensures State() == if id in old(sessions) then Publish(old(State()), id, pub, expected, copies)
                         else LatePublish(old(State()), id, pub, expected, copies)
    {
      hide WithPub, Receive;
      var us := if id in sessions then sessions[id] else gone[id];
      used := used + {pub};
      if id in sessions {
        sessions := sessions[id := WithPub(us, pub)];
      } else {
        gone := gone[id := WithPub(us, pub)];
      }
      FanOutAll(id, us, pub, expected, copies);
    }

    /** The non-blocking sends of the join-time pass. */
    static method SendAll(s: Session, ts: seq<Track>) returns (s': Session)
      ensures s' == OfferAll(s, ts)
    {
      s' := s;
      for i := 0 to |ts|
        invariant s' == OfferAll(s, ts[..i])
      {
        assert ts[..i + 1][..i] == ts[..i];
        s' := Offer(s', ts[i]);
      }
      assert ts[..|ts|] == ts;
    }

    /** The join-time pass of handleTracks, which the session may have left by then. */
    method HandleTracks(id: Id, copies: Id -> nat) returns (ghost order: seq<Id>)
      requires Valid() && (id in sessions || id in gone)
      modifies this
      ensures Valid() && IsOrder(old(State()), id, order)
      ensures State() == if id in old(sessions) then InitTracks(old(State()), id, order, copies)
                         else LateInit(old(State()), id, order, copies)
    {
      hide OfferAll, TracksFor;
      ghost var c := State();
      var us := if id in sessions then sessions[id] else gone[id];
      var out: seq<Track> := [];
      var rest := sessions.Keys - {id};
      order := [];
      while rest != {}
        invariant State() == c && us == if id in c.sessions then c.sessions[id] else c.gone[id]
        invariant rest <= sessions.Keys && id !in rest
        invariant forall k :: 0 <= k < |order| ==> order[k] in sessions && order[k] != id && order[k] !in rest
        invariant forall j, k :: 0 <= j < k < |order| ==> order[j] != order[k]
        invariant forall p :: p in sessions && p != id && p !in rest ==> p in order
        invariant out == JoinTracks(c, us, order, copies)
      {
        var p :| p in rest;
        rest := rest - {p};
        assert (order + [p])[..|order|] == order;
        order := order + [p];
        out := out + TracksFor(sessions[p], us, copies(p));
      }
      var us' := SendAll(us, out);
      if id in sessions {
        sessions := sessions[id := us'.(initDone := true)];
      } else {
        gone := gone[id := us'.(initDone := true)];
      }
    }

    /** The search both addTrack and removeTrack make among the peer's senders. */
    static method SenderOf(senders: seq<Option<Track>>, t: Track) returns (i: nat)
      ensures i == FindSender(senders, t)
    {
      i := 0;
      while i < |senders| && senders[i] != Some(t)
        invariant 0 <= i <= |senders|
        invariant forall j :: 0 <= j < i ==> senders[j] != Some(t)
      {
        i := i + 1;
      }
    }

    /** The outgoing offers loop takes the next action and turns to the signaling lock. */
    method TakeAction(id: Id)
      requires Valid() && id in sessions && CanWork(sessions[id]) && sessions[id].worker.Idle?
      modifies this`sessions
      ensures Valid() && State() == WorkOf(old(State()), id, false, Answered)
    {
      var s := sessions[id];
      var a := s.queue[0];
      s := s.(queue := s.queue[1..], worker := Holding(a));
      sessions := sessions[id := s];
    }

    /** The rest of its round, up to where it waits for an answer. */
    method StartAction(id: Id, lost: bool)
      requires Valid() && id in sessions && CanWork(sessions[id]) && sessions[id].worker.Holding?
      modifies this
      ensures Valid() && State() == WorkOf(old(State()), id, lost, Answered)
    {
      hide BeginAdd, DoRemove;
      var s := sessions[id];
      var a := s.worker.action;
      s := s.(worker := Idle);
      var added: int := 0;
      if !lost {
        match a {
          case Add(t) => s, added := AddTrack(s, t);
          case Remove(target) => s, added := RemoveTrack(s, target);
        }
      }
      gauge := gauge + added;
      sessions := sessions[id := s];
    }

    /** addTrack up to sending the offer, with its change of the gauge. */
    static method AddTrack(s: Session, t: Track) returns (s': Session, added: int)
      ensures s' == BeginAdd(s, t) && added == s'.open - s.open
    {
      s', added := s, 0;
      var i := SenderOf(s.senders, t);
      if i < |s.senders| { return; }
      if t.pub.kind == Screen && s.screenSender.Some? { return; }
      s' := s.(senders := s.senders + [Some(t)], worker := Adding(t, |s.senders|), open := s.open + 1);
      added := 1;
    }

    /** removeTrack up to sending the offer. */
    static method RemoveTrack(s: Session, target: Option<Track>) returns (s': Session, added: int)
      ensures s' == DoRemove(s, target) && added == s'.open - s.open
    {
      s', added := s, 0;
      if target.None? { return; }
      var i := SenderOf(s.senders, target.value);
      if i == |s.senders| { return; }
      s' := s.(senders := s.senders[i := None], rx := s.rx - {target.value}, open := s.open - 1);
      added := -1;
      if s.screenSender == Some(i) {
        s' := s'.(screenSender := None);
      }
    }

    /** The three ways addTrack comes back from waiting for the answer. */
    method FinishAdd(id: Id, outcome: Outcome)
      requires Valid() && id in sessions && CanWork(sessions[id]) && sessions[id].worker.Adding? && outcome != Stopped
      modifies this
      ensures Valid() && State() == WorkOf(old(State()), id, false, outcome)
    {
      var s := sessions[id];
      var t, slot := s.worker.track, s.worker.slot;
      s := s.(worker := Idle);
      if outcome == Answered {
        if t.pub.kind == Screen {
          s := s.(screenSender := Some(slot));
        }
        s := s.(rx := s.rx + {t});
      } else {
        s := s.(senders := s.senders[slot := None], open := s.open - 1, rx := s.rx - {t});
        gauge := gauge - 1;
      }
      sessions := sessions[id := s];
    }

    /** The decrement for every track a leaving session was receiving. */
    method CountOff(rx: set<Track>)
      modifies this`gauge
      ensures gauge == old(gauge) - |rx|
    {
      var rest := rx;
      while rest != {}
        invariant rest <= rx && gauge == old(gauge) - |rx| + |rest|
      {
        var t :| t in rest;
        rest := rest - {t};
        gauge := gauge - 1;
      }
    }

    /** The loops of handleSessionClose over the sessions that stay. */
    method CleanUpOthers(id: Id, pubs: set<Pub>, sharer: bool)
      modifies this`sessions
      ensures sessions.Keys == old(sessions).Keys
      ensures sessions - {id} == Staying(old(sessions), id, pubs, sharer)
    {
      hide AfterDeparture;
      var rest := sessions.Keys - {id};
      while rest != {}
        invariant rest <= sessions.Keys == old(sessions).Keys && id !in rest
        invariant forall r :: r in sessions ==>
          sessions[r] == if r == id || r in rest then old(sessions)[r]
                         else AfterDeparture(old(sessions)[r], pubs, sharer)
      {
        var r :| r in rest;
        rest := rest - {r};
        var s := CleanUpReceiver(sessions[r], pubs, sharer);
        sessions := sessions[r := s];
      }
    }

    /** handleSessionClose, then the removal from the call. */
    method CloseSession(id: Id)
      requires Valid() && id in sessions
      modifies this
      ensures Valid() && State() == Close(old(State()), id)
    {
      hide Staying, Published, Departed;
      var us := sessions[id];
      var sharer := screenSession == Some(id);
      if sharer {
        screenSession := None;
      }
      CountOff(us.rx);
      CleanUpOthers(id, Published(us), sharer);
      gone := gone[id := Departed(us)];
      sessions := sessions - {id};
    }

    static method CleanUpReceiver(s: Session, pubs: set<Pub>, sharer: bool) returns (s': Session)
      ensures s' == AfterDeparture(s, pubs, sharer)
    {
      s' := s;
      if sharer {
        s' := s'.(screenSender := None);
      }
      if pubs != {} {
        s' := SweepSenders(s', pubs);
      }
    }

    /** The inner loop of handleSessionClose over one receiver's senders. */
    static method SweepSenders(s: Session, pubs: set<Pub>) returns (s': Session)
      ensures s' == Sweep(s, pubs, |s.senders|)
    {
      hide Enqueue;
      s' := s;
      for i := 0 to |s.senders|
        invariant s' == Sweep(s, pubs, i)
      {
        var carried := s'.senders[i];
        if carried.Some? && carried.value.pub in pubs {
          if !IsAudio(carried.value.pub.kind) {
            s' := Enqueue(s', Remove(carried));
          } else {
            s' := s'.(senders := s'.senders[i := None]);
          }
        }
      }
    }
  }
}
