/** One call of the SFU as a value: its sessions, what each publishes and receives, the
    queue of track actions each receiver works off, the screen-share owner and the gauge
    of outgoing tracks. Every function is one section the server runs under the call or
    session mutex; what the code leaves to chance (map order, pickRandom, the bandwidth
    estimate) is an argument. */
module CallModel {
  import opened Wrappers

  type Id = string

  datatype Kind = Voice | ScreenAudio | Screen | Video

  datatype Mime = Opus | VP8 | AV1

  /** Simulcast levels "l" and "h". */
  datatype Level = Low | High

  /** The index of a video track (getTrackIndex). */
  datatype Key = Key(mime: Mime, level: Level)

  /** What one OnTrack call publishes. For video it stands for the NumCPU local tracks
      made from one remote track. `rid` is None for a track without simulcast. */
  datatype Pub = Pub(owner: Id, kind: Kind, mime: Mime, rid: Option<Level>, serial: nat)

  /** One local track of a publication; only video has several. */
  datatype Track = Track(pub: Pub, copy: nat)

  datatype Action = Add(track: Track) | Remove(target: Option<Track>)

  /** The goroutine of handleTracks: between actions, waiting for the signaling lock with an
      action it has taken, or in addTrack with the track attached to the sender at `slot` and the
      offer not answered yet. */
  datatype Worker = Idle | Holding(action: Action) | Adding(track: Track, slot: nat)

  datatype Session = Session(
    av1: bool,
    initDone: bool,                  // tracksInitDone
    voice: Option<Pub>,              // outVoiceTrack
    screenAudio: Option<Pub>,        // outScreenAudioTrack
    screen: map<Key, Pub>,           // outScreenTracks
    video: map<Key, Pub>,            // outVideoTracks
    queue: seq<Action>,              // tracksCh
    offered: multiset<Pub>,          // history: adds sent to tracksCh, queued or logged as overflow
    senders: seq<Option<Track>>,     // rtcConn.GetSenders()
    screenSender: Option<nat>,       // screenTrackSender
    rx: set<Track>,                  // rxTracks
    worker: Worker,
    open: int)                       // history: increments minus decrements of the gauge

  /** `gone` holds sessions that left the call while their goroutines may still run.
      `used` holds the publications made so far; identifiers are random, hence fresh.
      `switching` holds the layers of level switches that are between their two pushes. */
  datatype State = State(
    sessions: map<Id, Session>,
    gone: map<Id, Session>,
    screenSession: Option<Id>,
    gauge: int,
    used: set<Pub>,
    switching: map<Id, Track>)

  const TracksChSize := 100

  predicate IsAudio(k: Kind) { k == Voice || k == ScreenAudio }

  function NewSession(av1: bool): Session {
    Session(av1, false, None, None, map[], map[], [], multiset{}, [], None, {}, Idle, 0)
  }

  /** A send on tracksCh that never blocks. */
  function Enqueue(s: Session, a: Action): Session {
    if |s.queue| < TracksChSize then s.(queue := s.queue + [a]) else s
  }

  function Offer(s: Session, t: Track): Session {
    Enqueue(s, Add(t)).(offered := s.offered + multiset{t.pub})
  }

  function OfferAll(s: Session, ts: seq<Track>): Session {
    if ts == [] then s else Offer(OfferAll(s, ts[..|ts| - 1]), ts[|ts| - 1])
  }

  // ------------------------------------------------------------- publishing

  function LevelOf(pub: Pub): Level {
    if pub.rid.Some? then pub.rid.value else Low
  }

  function KeyOf(pub: Pub): Key { Key(pub.mime, LevelOf(pub)) }

  function WithPub(s: Session, pub: Pub): Session {
    match pub.kind
    case Voice => s.(voice := Some(pub))
    case ScreenAudio => s.(screenAudio := Some(pub))
    case Screen => s.(screen := s.screen[KeyOf(pub) := pub])
    case Video => s.(video := s.video[KeyOf(pub) := pub])
  }

  /** Whether the fan-out of OnTrack sends a publication of `p` to an initialised receiver
      `r` whose expected simulcast level is `expected`. */
  predicate Accepts(p: Session, r: Session, pub: Pub, expected: Level) {
    IsAudio(pub.kind) ||
    (&& LevelOf(pub) == (if pub.rid.Some? then expected else Low)
     && !(pub.mime == VP8 && p.av1 && r.av1)
     && !(pub.mime == AV1 && !r.av1))
  }

  function Receive(p: Session, r: Session, pub: Pub, expected: Level, copy: nat): Session {
    if r.initDone && Accepts(p, r, pub, expected) then Offer(r, Track(pub, copy)) else r
  }

  /** A publication of `p`, the session `id`, sent to all others. */
  function FannedOut(m: map<Id, Session>, id: Id, p: Session, pub: Pub, expected: Id -> Level, copies: Id -> nat): map<Id, Session> {
    map r | r in m :: if r == id then m[r] else Receive(p, m[r], pub, expected(r), copies(r))
  }

  /** OnTrack up to the point where it starts forwarding packets. */
  function Publish(c: State, id: Id, pub: Pub, expected: Id -> Level, copies: Id -> nat): State
    requires id in c.sessions
  {
    var p := c.sessions[id];
    c.(sessions := FannedOut(c.sessions[id := WithPub(p, pub)], id, p, pub, expected, copies),
       used := c.used + {pub})
  }

  /** OnTrack of a session that has left the call in the meantime: nothing stops it. */
  function LatePublish(c: State, id: Id, pub: Pub, expected: Id -> Level, copies: Id -> nat): State
    requires id in c.gone
  {
    var p := c.gone[id];
    c.(gone := c.gone[id := WithPub(p, pub)],
       sessions := FannedOut(c.sessions, id, p, pub, expected, copies),
       used := c.used + {pub})
  }

  // -------------------------------------------------------------- joining

  function Join(c: State, id: Id, av1: bool): State {
    if id in c.sessions then c else c.(sessions := c.sessions[id := NewSession(av1)])
  }

  /** The codec a receiver is given when both ends can choose. */
  function Wanted(p: Session, r: Session): Mime {
    if p.av1 && r.av1 then AV1 else VP8
  }

  function Plain(pub: Option<Pub>, copy: nat): seq<Track> {
    match pub case None => [] case Some(v) => [Track(v, copy)]
  }

  function Lookup(m: map<Key, Pub>, k: Key): Option<Pub> {
    if k in m then Some(m[k]) else None
  }

  /** The tracks of `p` that a joining `r` is sent, in the order they are collected. */
  function TracksFor(p: Session, r: Session, copy: nat): seq<Track> {
    var k := Key(Wanted(p, r), Low);
    Plain(p.voice, 0) + Plain(Lookup(p.screen, k), copy)
    + Plain(p.screenAudio, 0) + Plain(Lookup(p.video, k), copy)
  }

  /** The join-time pass over the other sessions in the given order. */
  function JoinTracks(c: State, r: Session, order: seq<Id>, copies: Id -> nat): seq<Track>
    requires forall k :: 0 <= k < |order| ==> order[k] in c.sessions
  {
    if order == [] then [] else
      var p := order[|order| - 1];
      JoinTracks(c, r, order[..|order| - 1], copies) + TracksFor(c.sessions[p], r, copies(p))
  }

  /** Some order in which a range over the call's sessions can visit all but `id`. */
  ghost predicate IsOrder(c: State, id: Id, order: seq<Id>) {
    && (forall k :: 0 <= k < |order| ==> order[k] in c.sessions && order[k] != id)
    && (forall j, k :: 0 <= j < k < |order| ==> order[j] != order[k])
    && (forall p :: p in c.sessions && p != id ==> p in order)
  }

  function InitTracks(c: State, id: Id, order: seq<Id>, copies: Id -> nat): State
    requires id in c.sessions
    requires forall k :: 0 <= k < |order| ==> order[k] in c.sessions
  {
    var us := c.sessions[id];
    c.(sessions := c.sessions[id := OfferAll(us, JoinTracks(c, us, order, copies)).(initDone := true)])
  }

  /** The same pass for a session that has left the call in the meantime. */
  function LateInit(c: State, id: Id, order: seq<Id>, copies: Id -> nat): State
    requires id in c.gone
    requires forall k :: 0 <= k < |order| ==> order[k] in c.sessions
  {
    var us := c.gone[id];
    c.(gone := c.gone[id := OfferAll(us, JoinTracks(c, us, order, copies)).(initDone := true)])
  }

  // ------------------------------------------------------ the track goroutine

  /** The first sender carrying `t`, or the number of senders. */
  function FindSender(senders: seq<Option<Track>>, t: Track): (i: nat)
    ensures i <= |senders|
    ensures i < |senders| ==> senders[i] == Some(t)
    ensures forall j :: 0 <= j < i ==> senders[j] != Some(t)
  {
    if senders == [] || senders[0] == Some(t) then 0 else 1 + FindSender(senders[1..], t)
  }

  /** addTrack up to sending the offer. */
  function BeginAdd(s: Session, t: Track): Session {
    if FindSender(s.senders, t) < |s.senders| then s                      // sender already exists
    else if t.pub.kind == Screen && s.screenSender.Some? then s           // screen sender already set
    else s.(senders := s.senders + [Some(t)], worker := Adding(t, |s.senders|), open := s.open + 1)
  }

  /** removeTrack; what it does after its critical section changes nothing here. */
  function DoRemove(s: Session, target: Option<Track>): Session {
    if target.None? then s
    else
      var i := FindSender(s.senders, target.value);
      if i == |s.senders| then s
      else s.(senders := s.senders[i := None], rx := s.rx - {target.value}, open := s.open - 1,
              screenSender := if s.screenSender == Some(i) then None else s.screenSender)
  }

  /** How a blocked addTrack ends: answered, failed or timed out, or stopped by closeCh. */
  datatype Outcome = Answered | Failed | Stopped

  /** One step of the goroutine: it takes an action, gets the signaling lock or, if `lost`, drops
      the action because the lock timed out, or comes back from waiting for an answer. */
  function Work(s: Session, lost: bool, outcome: Outcome): Session
    requires s.worker.Idle? ==> s.queue != []
    requires s.worker.Adding? ==> s.worker.slot < |s.senders|
  {
    match s.worker
    case Idle =>
      s.(queue := s.queue[1..], worker := Holding(s.queue[0]))
    case Holding(a) =>
      var s' := s.(worker := Idle);
      if lost then s'
      else if a.Add? then BeginAdd(s', a.track)
      else DoRemove(s', a.target)
    case Adding(t, slot) =>
      match outcome
      case Answered =>
        s.(worker := Idle, rx := s.rx + {t},
           screenSender := if t.pub.kind == Screen then Some(slot) else s.screenSender)
      case Failed =>
        s.(worker := Idle, senders := s.senders[slot := None], rx := s.rx - {t}, open := s.open - 1)
      case Stopped => s.(worker := Idle)
  }

  /** A step of a session, in the call or gone, carried over to the gauge. */
  function WorkOf(c: State, id: Id, lost: bool, outcome: Outcome): State
    requires CanWorkOf(c, id, outcome)
  {
    if id in c.sessions then
      var s' := Work(c.sessions[id], lost, outcome);
      c.(sessions := c.sessions[id := s'], gauge := c.gauge + s'.open - c.sessions[id].open)
    else
      var s' := Work(c.gone[id], lost, outcome);
      c.(gone := c.gone[id := s'], gauge := c.gauge + s'.open - c.gone[id].open)
  }

  predicate CanWork(s: Session) {
    && s.initDone
    && (s.worker.Idle? ==> s.queue != [])
    && (s.worker.Adding? ==> s.worker.slot < |s.senders|)
  }

  // ----------------------------------------------------------- screen sharing

  function ScreenOn(c: State, id: Id): State {
    if c.screenSession.None? then c.(screenSession := Some(id)) else c
  }

  /** session.clearScreenState */
  function WithoutScreen(s: Session): Session {
    s.(screen := map[], screenAudio := None)
  }

  /** What clearScreenState does to a session other than the owner. */
  function DropScreen(s: Session): Session {
    match s.screenSender
    case None => s
    case Some(i) =>
      Enqueue(s, Remove(if i < |s.senders| then s.senders[i] else None)).(screenSender := None)
  }

  /** clearScreenState; an owner that has left is not met among the sessions, and stays. */
  function ScreenOff(c: State, id: Id): State {
    if c.screenSession != Some(id) then c   // error, nothing changes
    else
      c.(sessions := map r | r in c.sessions ::
                       if r == id then WithoutScreen(c.sessions[r]) else DropScreen(c.sessions[r]),
         screenSession := if id in c.sessions then None else c.screenSession)
  }

  predicate IsMember(c: State, id: Id) { id in c.sessions || id in c.gone }

  /** A session by its identifier, also after it has left. */
  function Member(c: State, id: Id): Session
    requires IsMember(c, id)
  {
    if id in c.sessions then c.sessions[id] else c.gone[id]
  }

  function PutMember(c: State, id: Id, s: Session): State
    requires IsMember(c, id)
  {
    if id in c.sessions then c.(sessions := c.sessions[id := s]) else c.(gone := c.gone[id := s])
  }

  predicate OnScreen(s: Session) {
    s.screenSender.Some? && s.screenSender.value < |s.senders| && s.senders[s.screenSender.value].Some?
  }

  /** The receiver is on some screen layer and `pub` is a layer of the current sharer. */
  predicate CanSwitch(c: State, id: Id, pub: Pub) {
    && IsMember(c, id) && OnScreen(Member(c, id)) && id !in c.switching
    && c.screenSession.Some? && IsMember(c, c.screenSession.value)
    && pub.rid.Some? && pub in Member(c, c.screenSession.value).screen.Values
  }

  /** The first push of handleSenderBitrateChange, once it decided to send another layer instead of
      the track now attached to the screen sender. */
  function SwitchOut(s: Session): Session
    requires OnScreen(s)
  {
    Enqueue(s, Remove(s.senders[s.screenSender.value]))
  }

  /** It comes to the second push only if there was room for the first. */
  function SwitchOutOf(c: State, id: Id, pub: Pub, copy: nat): State
    requires CanSwitch(c, id, pub)
  {
    var s := Member(c, id);
    PutMember(c, id, SwitchOut(s)).(
      switching := if |s.queue| < TracksChSize then c.switching[id := Track(pub, copy)] else c.switching)
  }

  /** By then the queue may have changed; what is initialised stays so. */
  predicate CanSwitchIn(c: State, id: Id) { id in c.switching && IsMember(c, id) && Member(c, id).initDone }

  function SwitchInOf(c: State, id: Id): State
    requires CanSwitchIn(c, id)
  {
    PutMember(c, id, Offer(Member(c, id), c.switching[id])).(switching := c.switching - {id})
  }

  // ---------------------------------------------------------------- leaving

  function Published(s: Session): set<Pub> {
    (match s.voice case None => {} case Some(v) => {v})
    + (match s.screenAudio case None => {} case Some(v) => {v})
    + s.screen.Values + s.video.Values
  }

  /** What handleSessionClose does about one sender of another session. */
  function SweepOne(s: Session, pubs: set<Pub>, i: nat): (s': Session)
    requires i < |s.senders|
    ensures |s'.senders| == |s.senders|
  {
    if s.senders[i].None? || s.senders[i].value.pub !in pubs then s
    else if !IsAudio(s.senders[i].value.pub.kind) then Enqueue(s, Remove(s.senders[i]))
    else s.(senders := s.senders[i := None])
  }

  /** The same for its first `n` senders. */
  function Sweep(s: Session, pubs: set<Pub>, n: nat): (s': Session)
    requires n <= |s.senders|
    ensures |s'.senders| == |s.senders|
  {
    if n == 0 then s else SweepOne(Sweep(s, pubs, n - 1), pubs, n - 1)
  }

  function AfterDeparture(s: Session, pubs: set<Pub>, wasSharer: bool): Session {
    var s' := if wasSharer then s.(screenSender := None) else s;
    if pubs == {} then s' else Sweep(s', pubs, |s'.senders|)
  }

  /** The closing session itself: every sender is detached, every received track counted off. */
  function Departed(s: Session): Session {
    s.(senders := seq(|s.senders|, i => None), open := s.open - |s.rx|)
  }

  /** The sessions that stay, after the cleanup. */
  function Staying(m: map<Id, Session>, id: Id, pubs: set<Pub>, sharer: bool): map<Id, Session> {
    map r | r in m && r != id :: AfterDeparture(m[r], pubs, sharer)
  }

  /** handleSessionClose followed by the removal from the call. */
  function Close(c: State, id: Id): State
    requires id in c.sessions
  {
    var us := c.sessions[id];
    var sharer := c.screenSession == Some(id);
    c.(sessions := Staying(c.sessions, id, Published(us), sharer),
       gone := c.gone[id := Departed(us)],
       screenSession := if sharer then None else c.screenSession,
       gauge := c.gauge - |us.rx|)
  }

  // -------------------------------------------------------------------- runs

  datatype Event =
    | EvJoin(id: Id, av1: bool)
    | EvInit(id: Id, order: seq<Id>, copies: Id -> nat)
    | EvPublish(id: Id, pub: Pub, expected: Id -> Level, copies: Id -> nat)
    | EvLateInit(id: Id, order: seq<Id>, copies: Id -> nat)
    | EvLatePublish(id: Id, pub: Pub, expected: Id -> Level, copies: Id -> nat)
    | EvWork(id: Id, lost: bool, outcome: Outcome)
    | EvScreenOn(id: Id)
    | EvLateScreenOn(id: Id)
    | EvScreenOff(id: Id)
    | EvSwitchOut(id: Id, pub: Pub, copy: nat)
    | EvSwitchIn(id: Id)
    | EvClose(id: Id)

  /** `Stopped` needs closeCh, which is closed only after the session has left the call. */
  predicate CanWorkOf(c: State, id: Id, outcome: Outcome) {
    || (id in c.sessions && CanWork(c.sessions[id]) && outcome != Stopped)
    || (id !in c.sessions && id in c.gone && CanWork(c.gone[id]))
  }

  /** Session identifiers and publications are fresh. */
  ghost predicate Can(c: State, e: Event) {
    match e
    case EvJoin(id, _) => id !in c.gone
    case EvInit(id, order, _) => id in c.sessions && !c.sessions[id].initDone && IsOrder(c, id, order)
    case EvPublish(id, pub, _, _) => id in c.sessions && pub.owner == id && pub !in c.used
    case EvLateInit(id, order, _) => id in c.gone && !c.gone[id].initDone && IsOrder(c, id, order)
    case EvLatePublish(id, pub, _, _) => id in c.gone && pub.owner == id && pub !in c.used
    case EvWork(id, _, outcome) => CanWorkOf(c, id, outcome)
    case EvScreenOn(id) => id in c.sessions
    case EvLateScreenOn(id) => id in c.gone
    case EvScreenOff(id) => IsMember(c, id)
    case EvSwitchOut(id, pub, _) => CanSwitch(c, id, pub)
    case EvSwitchIn(id) => CanSwitchIn(c, id)
    case EvClose(id) => id in c.sessions
  }

  ghost function Do(c: State, e: Event): State
    requires Can(c, e)
  {
    match e
    case EvJoin(id, av1) => Join(c, id, av1)
    case EvInit(id, order, copies) => InitTracks(c, id, order, copies)
    case EvPublish(id, pub, expected, copies) => Publish(c, id, pub, expected, copies)
    case EvLateInit(id, order, copies) => LateInit(c, id, order, copies)
    case EvLatePublish(id, pub, expected, copies) => LatePublish(c, id, pub, expected, copies)
    case EvWork(id, lost, outcome) => WorkOf(c, id, lost, outcome)
    case EvScreenOn(id) => ScreenOn(c, id)
    case EvLateScreenOn(id) => ScreenOn(c, id)
    case EvScreenOff(id) => ScreenOff(c, id)
    case EvSwitchOut(id, pub, copy) => SwitchOutOf(c, id, pub, copy)
    case EvSwitchIn(id) => SwitchInOf(c, id)
    case EvClose(id) => Close(c, id)
  }

  ghost predicate Step(c: State, e: Event, c': State) {
    Can(c, e) && c' == Do(c, e)
  }

  ghost predicate IsRun(cs: seq<State>, es: seq<Event>) {
    && |cs| == |es| + 1
    && forall i :: 0 <= i < |es| ==> Step(cs[i], es[i], cs[i + 1])
  }

  ghost predicate Initial(c: State) {
    c.sessions == map[] && c.gone == map[] && c.screenSession == None && c.gauge == 0 && c.used == {}
    && c.switching == map[]
  }
}
