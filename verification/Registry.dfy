/** The two registries of the SFU server, the flat map from session to configuration and the
    tree of groups, calls and sessions, and the channel that a draining Stop waits on.
    Adding and closing a session are taken as atomic. */
module Registry {
  import opened Wrappers

  type Id = string

  datatype Config = Config(group: Id, call: Id, user: Id, session: Id)

  type Tree = map<Id, map<Id, map<Id, Config>>>

  datatype Error = InvalidConfig | InitFailed | SessionExists | GroupNotFound | CallNotFound | SessionNotFound

  /** `made` counts the drain channels Stop has made, `closed` lists those closed in order,
      `aborted` counts sessions that failed to start after they were counted. */
  datatype State = Registries(
    sessions: map<Id, Config>,
    groups: Tree,
    drain: Option<nat>,
    made: nat,
    closed: seq<nat>,
    gauge: int,
    aborted: nat)

  predicate Initial(s: State) {
    s.sessions == map[] && s.groups == map[] && s.drain == None && s.made == 0 && s.closed == []
    && s.gauge == 0 && s.aborted == 0
  }

  predicate IsValid(cfg: Config) {
    cfg.group != "" && cfg.call != "" && cfg.user != "" && cfg.session != ""
  }

  function CallsOf(t: Tree, g: Id): map<Id, map<Id, Config>> { if g in t then t[g] else map[] }

  function SessionsOf(t: Tree, g: Id, c: Id): map<Id, Config> {
    if c in CallsOf(t, g) then CallsOf(t, g)[c] else map[]
  }

  predicate InTree(t: Tree, g: Id, c: Id, id: Id) { id in SessionsOf(t, g, c) }

  // ------------------------------------------------------------------ agreement

  /** Both registries describe the same sessions with the same configurations. */
  ghost predicate SameSessions(s: State) {
    && (forall id :: id in s.sessions ==>
          && s.sessions[id].session == id
          && InTree(s.groups, s.sessions[id].group, s.sessions[id].call, id))
    && (forall g, c, id :: InTree(s.groups, g, c, id) ==>
          && id in s.sessions
          && SessionsOf(s.groups, g, c)[id] == s.sessions[id]
          && s.sessions[id].group == g && s.sessions[id].call == c)
  }

  /** No empty call or group remains. */
  ghost predicate NoEmpties(t: Tree) {
    && (forall g :: g in t ==> t[g] != map[])
    && (forall g, c :: g in t && c in t[g] ==> t[g][c] != map[])
  }

  ghost predicate Agree(s: State) { SameSessions(s) && NoEmpties(s.groups) }

  /** A pending drain has something to wait for, and no channel is closed twice. */
  ghost predicate DrainOk(s: State) {
    && (s.drain.Some? ==> s.sessions != map[] && s.drain.value < s.made && s.drain.value !in s.closed)
    && (forall i :: 0 <= i < |s.closed| ==> s.closed[i] < s.made)
    && (forall i, j :: 0 <= i < j < |s.closed| ==> s.closed[i] != s.closed[j])
  }

  /** Starting a session that then fails leaves its count behind. */
  ghost predicate GaugeOk(s: State) { s.gauge == |s.sessions| + s.aborted }

  ghost predicate Inv(s: State) { Agree(s) && DrainOk(s) && GaugeOk(s) }

  // ------------------------------------------------------------- specifications

  function Insert(t: Tree, cfg: Config): Tree {
    t[cfg.group := CallsOf(t, cfg.group)[cfg.call := SessionsOf(t, cfg.group, cfg.call)[cfg.session := cfg]]]
  }

  /** InitSession followed by addSession; `rtcOk` tells whether the peer connection could
      be made. */
  function Add(s: State, cfg: Config, rtcOk: bool): (State, Option<Error>) {
    if !IsValid(cfg) then (s, Some(InvalidConfig))
    else if !rtcOk then (s.(gauge := s.gauge + 1, aborted := s.aborted + 1), Some(InitFailed))
    else if InTree(s.groups, cfg.group, cfg.call, cfg.session) then
      (s.(gauge := s.gauge + 1, aborted := s.aborted + 1), Some(SessionExists))
    else
      (s.(sessions := s.sessions[cfg.session := cfg], groups := Insert(s.groups, cfg), gauge := s.gauge + 1), None)
  }

  function Prune(t: Tree, cfg: Config): Tree {
    var ss := SessionsOf(t, cfg.group, cfg.call) - {cfg.session};
    var cs := if ss == map[] then CallsOf(t, cfg.group) - {cfg.call} else CallsOf(t, cfg.group)[cfg.call := ss];
    if cs == map[] then t - {cfg.group} else t[cfg.group := cs]
  }

  function Unlisted(s: State, id: Id): State {
    var left := s.sessions - {id};
    var drained := left == map[] && s.drain.Some?;
    s.(sessions := left,
       closed := if drained then s.closed + [s.drain.value] else s.closed,
       drain := if drained then None else s.drain)
  }

  /** CloseSession, without the closing of the session itself. */
  function Close(s: State, id: Id): (State, Option<Error>) {
    var s1 := Unlisted(s, id);
    if id !in s.sessions then (s1, None) else
      var cfg := s.sessions[id];
      var s2 := s1.(gauge := s1.gauge - 1);
      if cfg.group !in s.groups then (s2, Some(GroupNotFound))
      else if cfg.call !in s.groups[cfg.group] then (s2, Some(CallNotFound))
      else if cfg.session !in s.groups[cfg.group][cfg.call] then (s2, Some(SessionNotFound))
      else (s2.(groups := Prune(s.groups, cfg)), None)
  }

  /** Stop up to where it waits. */
  function Stop(s: State): State {
    if s.sessions == map[] then s else s.(drain := Some(s.made), made := s.made + 1)
  }

  // ------------------------------------------------------------------ theorems

  lemma PruneNoEmpties(t: Tree, cfg: Config)
    requires NoEmpties(t)
    ensures NoEmpties(Prune(t, cfg))
  {
  }

  lemma InsertNoEmpties(t: Tree, cfg: Config)
    requires NoEmpties(t)
    ensures NoEmpties(Insert(t, cfg))
  {
    var t' := Insert(t, cfg);
    assert cfg.session in t'[cfg.group][cfg.call];
    forall g, c | g in t' && c in t'[g]
      ensures t'[g][c] != map[]
    {
      if g != cfg.group || c != cfg.call {
        assert g in t && c in t[g] && t'[g][c] == t[g][c];
      }
    }
  }

  predicate Is(cfg: Config, g: Id, c: Id, id: Id) { g == cfg.group && c == cfg.call && id == cfg.session }

  ghost predicate Inserted(t: Tree, cfg: Config, t': Tree) {
    forall g, c, id ::
      && (InTree(t', g, c, id) <==> InTree(t, g, c, id) || Is(cfg, g, c, id))
      && (InTree(t', g, c, id) ==>
            SessionsOf(t', g, c)[id] == if Is(cfg, g, c, id) then cfg else SessionsOf(t, g, c)[id])
  }

  lemma InsertIsInserted(t: Tree, cfg: Config)
    ensures Inserted(t, cfg, Insert(t, cfg))
  {
  }

  ghost predicate Pruned(t: Tree, cfg: Config, t': Tree) {
    forall g, c, id ::
      && (InTree(t', g, c, id) <==> InTree(t, g, c, id) && !Is(cfg, g, c, id))
      && (InTree(t', g, c, id) ==> SessionsOf(t', g, c)[id] == SessionsOf(t, g, c)[id])
  }

  lemma PruneIsPruned(t: Tree, cfg: Config)
    ensures Pruned(t, cfg, Prune(t, cfg))
  {
  }

  predicate LiveElsewhere(s: State, cfg: Config) {
    && cfg.session in s.sessions
    && (s.sessions[cfg.session].group != cfg.group || s.sessions[cfg.session].call != cfg.call)
  }

  lemma InsertAgrees(s: State, cfg: Config, s': State)
    requires SameSessions(s) && !LiveElsewhere(s, cfg) && !InTree(s.groups, cfg.group, cfg.call, cfg.session)
    requires s'.sessions == s.sessions[cfg.session := cfg] && Inserted(s.groups, cfg, s'.groups)
    ensures SameSessions(s')
  {
    hide InTree, SessionsOf;
  }

  lemma InsertDisagrees(s: State, cfg: Config, s': State)
    requires SameSessions(s) && LiveElsewhere(s, cfg)
    requires s'.sessions == s.sessions[cfg.session := cfg] && Inserted(s.groups, cfg, s'.groups)
    ensures !SameSessions(s')
  {
    var live := s.sessions[cfg.session];
    assert InTree(s.groups, live.group, live.call, cfg.session);
    assert InTree(s'.groups, live.group, live.call, cfg.session);
  }

  /** A session identifier that is live in another call breaks the agreement, and nothing
      else does: this is why identifiers have to be unique. */
  lemma AddKeepsAgreementIff(s: State, cfg: Config, rtcOk: bool)
    requires Agree(s)
    ensures var (s', err) := Add(s, cfg, rtcOk);
      Agree(s') <==> !(err == None && LiveElsewhere(s, cfg))
  {
    var (s', err) := Add(s, cfg, rtcOk);
    if err == None {
      InsertIsInserted(s.groups, cfg);
      InsertNoEmpties(s.groups, cfg);
      hide Insert, Inserted, SameSessions, NoEmpties, InTree;
      if LiveElsewhere(s, cfg) {
        InsertDisagrees(s, cfg, s');
      } else {
        InsertAgrees(s, cfg, s');
      }
    }
  }

  /** An add succeeds exactly with a complete configuration, a peer connection, and an identifier
      not yet in its call; then the session is in both registries and nothing else has changed in
      either. It fails in this order, and a failure leaves both as they were; all but the first are
      counted as started. */
  lemma AddSucceedsIff(s: State, cfg: Config, rtcOk: bool)
    ensures var (s', err) := Add(s, cfg, rtcOk);
      && (err == None <==>
            && cfg.group != "" && cfg.call != "" && cfg.user != "" && cfg.session != ""
            && rtcOk && !InTree(s.groups, cfg.group, cfg.call, cfg.session))
      && (err == None ==>
            && s'.sessions == s.sessions[cfg.session := cfg] && Inserted(s.groups, cfg, s'.groups)
            && s'.gauge == s.gauge + 1 && s'.aborted == s.aborted)
      && (err != None ==>
            && s'.sessions == s.sessions && s'.groups == s.groups
            && err == Some(if !IsValid(cfg) then InvalidConfig else if !rtcOk then InitFailed else SessionExists)
            && s'.gauge == s.gauge + (if IsValid(cfg) then 1 else 0) && s'.aborted == s.aborted + (if IsValid(cfg) then 1 else 0))
      && s'.drain == s.drain && s'.made == s.made && s'.closed == s.closed
  {
    InsertIsInserted(s.groups, cfg);
    hide Insert, Inserted, InTree;
  }

  lemma PruneAgrees(s: State, id: Id, s': State)
    requires SameSessions(s) && id in s.sessions
    requires s'.sessions == s.sessions - {id} && Pruned(s.groups, s.sessions[id], s'.groups)
    ensures SameSessions(s')
  {
    hide InTree, SessionsOf;
  }

  /** None of the three "not found" errors can occur while the registries agree. */
  lemma CloseFindsIt(s: State, id: Id)
    requires SameSessions(s)
    ensures Close(s, id).1 == None
    ensures id in s.sessions ==> Close(s, id).0.groups == Prune(s.groups, s.sessions[id])
  {
    if id in s.sessions {
      var cfg := s.sessions[id];
      assert InTree(s.groups, cfg.group, cfg.call, id) && cfg.session == id;
      hide SameSessions, Prune;
    }
  }

  lemma CloseAgrees(s: State, id: Id)
    requires Agree(s)
    ensures Close(s, id).1 == None && Agree(Close(s, id).0)
  {
    CloseFindsIt(s, id);
    var s' := Close(s, id).0;
    assert s'.sessions == s.sessions - {id};
    if id in s.sessions {
      PruneIsPruned(s.groups, s.sessions[id]);
      PruneNoEmpties(s.groups, s.sessions[id]);
      hide Prune, Pruned, NoEmpties, SameSessions, Close;
      PruneAgrees(s, id, s');
    } else {
      hide NoEmpties, SameSessions;
      assert s'.sessions == s.sessions;
      assert s'.groups == s.groups;
      SameAgrees(s, s');
    }
  }

  /** A close reports something not found exactly when the flat registry has a session that the
      tree has not, and then the tree stays as it is; otherwise the session leaves the tree, and
      nothing else does. In both cases it is no longer listed or counted. */
  lemma CloseFailsIff(s: State, id: Id)
    requires id in s.sessions
    ensures var (s', err) := Close(s, id);
      var cfg := s.sessions[id];
      && (err == None <==> InTree(s.groups, cfg.group, cfg.call, cfg.session))
      && (if err == None then Pruned(s.groups, cfg, s'.groups) else s'.groups == s.groups)
      && s'.sessions == s.sessions - {id} && s'.gauge == s.gauge - 1
  {
    PruneIsPruned(s.groups, s.sessions[id]);
    hide Prune, Pruned;
  }

  lemma SameAgrees(s: State, s': State)
    requires Agree(s) && s'.sessions == s.sessions && s'.groups == s.groups
    ensures Agree(s')
  {
  }

  lemma StopKeeps(s: State)
    requires Inv(s)
    ensures Inv(Stop(s))
  {
    hide SameSessions, NoEmpties;
    SameAgrees(s, Stop(s));
  }

  // ---------------------------------------------------------------------- runs

  datatype Event = EvAdd(cfg: Config, rtcOk: bool) | EvClose(id: Id) | EvStop

  /** Identifiers are unique across calls. */
  predicate Can(s: State, e: Event) {
    e.EvAdd? ==> !LiveElsewhere(s, e.cfg)
  }

  function Do(s: State, e: Event): State {
    match e
    case EvAdd(cfg, rtcOk) => Add(s, cfg, rtcOk).0
    case EvClose(id) => Close(s, id).0
    case EvStop => Stop(s)
  }

  predicate Step(s: State, e: Event, s': State) { Can(s, e) && s' == Do(s, e) }

  ghost predicate IsRun(ss: seq<State>, es: seq<Event>) {
    && |ss| == |es| + 1
    && Initial(ss[0])
    && forall i :: 0 <= i < |es| ==> Step(ss[i], es[i], ss[i + 1])
  }

  lemma SizeOfPut<K, V>(m: map<K, V>, k: K, v: V)
    ensures |m[k := v]| == |m| + if k in m then 0 else 1
    ensures |m - {k}| == |m| - if k in m then 1 else 0
  {
    assert m[k := v].Keys == m.Keys + {k};
    assert (m - {k}).Keys == m.Keys - {k};
  }

  lemma FreshId(s: State, cfg: Config)
    requires SameSessions(s) && !LiveElsewhere(s, cfg) && !InTree(s.groups, cfg.group, cfg.call, cfg.session)
    ensures cfg.session !in s.sessions
  {
  }

  lemma OneMore(s: State, cfg: Config, t: Tree)
    requires DrainOk(s) && GaugeOk(s) && cfg.session !in s.sessions
    ensures var s' := s.(sessions := s.sessions[cfg.session := cfg], groups := t, gauge := s.gauge + 1);
      DrainOk(s') && GaugeOk(s')
  {
    SizeOfPut(s.sessions, cfg.session, cfg);
    assert cfg.session in s.sessions[cfg.session := cfg];
  }

  lemma AddCounts(s: State, cfg: Config, rtcOk: bool)
    requires Inv(s) && !LiveElsewhere(s, cfg)
    ensures var s' := Add(s, cfg, rtcOk).0; DrainOk(s') && GaugeOk(s')
  {
    hide Insert, NoEmpties, SameSessions, InTree, LiveElsewhere;
    if Add(s, cfg, rtcOk).1 == None {
      hide DrainOk, GaugeOk;
      FreshId(s, cfg);
      OneMore(s, cfg, Insert(s.groups, cfg));
    }
  }

  lemma CloseCounts(s: State, id: Id)
    requires Inv(s)
    ensures var s' := Close(s, id).0; DrainOk(s') && GaugeOk(s')
  {
    hide Prune, Agree;
    if id in s.sessions {
      SizeOfPut(s.sessions, id, s.sessions[id]);
    } else {
      assert s.sessions - {id} == s.sessions;
    }
  }

  lemma StepKeeps(s: State, e: Event, s': State)
    requires Inv(s) && Step(s, e, s')
    ensures Inv(s')
  {
    hide DrainOk, GaugeOk, Agree, Add, Close, Stop, LiveElsewhere;
    match e
    case EvAdd(cfg, rtcOk) =>
      AddCounts(s, cfg, rtcOk);
      AddKeepsAgreementIff(s, cfg, rtcOk);
    case EvClose(id) =>
      CloseCounts(s, id);
      CloseAgrees(s, id);
    case EvStop =>
      StopKeeps(s);
  }

  /** In every reachable state the flat map and the tree agree, nothing empty is left in the
      tree, a pending drain has a live session to wait for, no drain channel was closed twice,
      and the session gauge is off by the failed starts only. */
  lemma {:induction false} RunsKeepInv(ss: seq<State>, es: seq<Event>, n: nat)
    requires IsRun(ss, es) && n < |ss|
    ensures Inv(ss[n])
  {
    hide Inv, Initial, Step;
    if n == 0 {
      InitialInv(ss[0]);
    } else {
      RunsKeepInv(ss, es, n - 1);
      StepKeeps(ss[n - 1], es[n - 1], ss[n]);
    }
  }

  lemma InitialInv(s: State)
    requires Initial(s)
    ensures Inv(s)
  {
  }

  /** How one step moves the pending drain and the closed channels. */
  ghost predicate DrainStep(s: State, e: Event, s': State) {
    if e.EvStop? && s.sessions != map[] then
      s'.drain == Some(s.made) && s'.made == s.made + 1 && s'.closed == s.closed
    else if e.EvClose? && s.drain.Some? && s.sessions.Keys == {e.id} then
      s'.drain == None && s'.made == s.made && s'.closed == s.closed + [s.drain.value] && s'.sessions == map[]
    else
      && s'.drain == s.drain && s'.made == s.made && s'.closed == s.closed
      && (s.sessions != map[] && !(e.EvClose? && s.sessions.Keys == {e.id}) ==> s'.sessions != map[])
  }

  lemma LastOne<V>(m: map<Id, V>, id: Id)
    ensures m != map[] ==> (m - {id} == map[] <==> m.Keys == {id})
  {
    assert (m - {id}).Keys == m.Keys - {id};
    assert forall n: map<Id, V> :: n == map[] <==> n.Keys == {};
  }

  lemma StepDrains(s: State, e: Event, s': State)
    requires DrainOk(s) && Step(s, e, s')
    ensures DrainStep(s, e, s')
  {
    hide Insert, Prune, LiveElsewhere;
    match e
    case EvAdd(cfg, rtcOk) =>
      assert cfg.session in s.sessions[cfg.session := cfg];
    case EvClose(id) =>
      LastOne(s.sessions, id);
    case EvStop =>
  }

  lemma RunDrains(ss: seq<State>, es: seq<Event>, i: nat)
    requires IsRun(ss, es) && i < |es|
    ensures DrainOk(ss[i]) && DrainStep(ss[i], es[i], ss[i + 1])
  {
    RunsKeepInv(ss, es, i);
    hide Agree, GaugeOk, Step, DrainOk;
    StepDrains(ss[i], es[i], ss[i + 1]);
  }

  /** A channel is closed by the close of the last live session while a drain is pending, and
      by nothing else. */
  lemma ChannelClosedIff(ss: seq<State>, es: seq<Event>, i: nat)
    requires IsRun(ss, es) && i < |es|
    ensures var s, s' := ss[i], ss[i + 1];
      if es[i].EvClose? && s.drain.Some? && s.sessions.Keys == {es[i].id}
      then s'.closed == s.closed + [s.drain.value] && s'.drain == None
      else s'.closed == s.closed
  {
    hide IsRun, DrainOk;
    RunDrains(ss, es, i);
  }

  lemma Lengths(ss: seq<State>, es: seq<Event>)
    requires IsRun(ss, es)
    ensures |ss| == |es| + 1
  {
  }

  predicate Emptied(s: State) { s.sessions == map[] }

  predicate Drained(s: State, channel: nat) { channel in s.closed }

  predicate Awaited(s: State, channel: nat) { s.drain == Some(channel) }

  /** What a Stop waits for: as long as no later Stop replaces its channel, the channel is
      closed exactly when the server has been without sessions since. */
  lemma {:induction false} DrainedIffEmptied(ss: seq<State>, es: seq<Event>, i: nat, j: nat)
    requires IsRun(ss, es) && i < j < |ss|
    requires es[i].EvStop? && !Emptied(ss[i])
    requires forall m :: i < m < j ==> !es[m].EvStop?
    ensures Drained(ss[j], ss[i].made) <==> exists m :: i < m <= j && Emptied(ss[m])
    ensures !Drained(ss[j], ss[i].made) ==> Awaited(ss[j], ss[i].made)
    decreases j
  {
    hide *;
    Lengths(ss, es);
    if j == i + 1 {
      StopWaits(ss, es, i);
    } else {
      RunDrains(ss, es, j - 1);
      DrainedIffEmptied(ss, es, i, j - 1);
      DrainedOneLater(ss[j - 1], es[j - 1], ss[j], ss[i].made);
    }
  }

  /** A channel stays closed, and one still waited for is closed by the step that empties the server. */
  lemma DrainedOneLater(s: State, e: Event, s': State, channel: nat)
    requires DrainOk(s) && DrainStep(s, e, s') && !e.EvStop?
    requires Drained(s, channel) || Awaited(s, channel)
    ensures Drained(s', channel) <==> Drained(s, channel) || Emptied(s')
    ensures Drained(s', channel) || Awaited(s', channel)
  {
  }

  lemma StopWaits(ss: seq<State>, es: seq<Event>, i: nat)
    requires IsRun(ss, es) && i < |es| && es[i].EvStop? && !Emptied(ss[i])
    ensures !Emptied(ss[i + 1]) && Awaited(ss[i + 1], ss[i].made) && !Drained(ss[i + 1], ss[i].made)
  {
    RunDrains(ss, es, i);
    assert Step(ss[i], es[i], ss[i + 1]);
    hide IsRun;
  }

  /** The channel is closed neither yet nor by the pending drain. */
  predicate Stranded(s: State, channel: nat) {
    channel !in s.closed && s.drain != Some(channel) && channel < s.made
  }

  /** A second Stop while the first still waits takes its place: the first one's channel is
      never closed and that Stop never returns. */
  lemma {:induction false} SecondStopStrandsFirst(ss: seq<State>, es: seq<Event>, i: nat, j: nat)
    requires IsRun(ss, es) && i < j < |ss|
    requires es[i].EvStop? && ss[i].drain.Some?
    ensures Stranded(ss[j], ss[i].drain.value)
    decreases j
  {
    hide *;
    Lengths(ss, es);
    RunDrains(ss, es, j - 1);
    if j == i + 1 {
      SecondStopReplaces(ss[i], es[i], ss[j]);
    } else {
      SecondStopStrandsFirst(ss, es, i, j - 1);
      StaysStranded(ss[j - 1], es[j - 1], ss[j], ss[i].drain.value);
    }
  }

  lemma SecondStopReplaces(s: State, e: Event, s': State)
    requires DrainOk(s) && DrainStep(s, e, s') && e.EvStop? && s.drain.Some?
    ensures Stranded(s', s.drain.value)
  {
  }

  lemma StaysStranded(s: State, e: Event, s': State, channel: nat)
    requires DrainStep(s, e, s') && Stranded(s, channel)
    ensures Stranded(s', channel)
  {
  }

  /** Such a second Stop is possible wherever a session can be added. */
  lemma SecondStopIsReached(s: State, cfg: Config) returns (ss: seq<State>, es: seq<Event>)
    requires Initial(s) && IsValid(cfg)
    ensures IsRun(ss, es) && ss[0] == s && |es| == 3
    ensures es[2].EvStop? && ss[2].drain.Some?
  {
    var s1 := Add(s, cfg, true).0;
    var s2 := Stop(s1);
    ss, es := [s, s1, s2, Stop(s2)], [EvAdd(cfg, true), EvStop, EvStop];
    assert Step(s, EvAdd(cfg, true), s1);
    assert cfg.session in s1.sessions by { hide Insert; }
    hide Add;
    assert Step(s1, EvStop, s2) && Step(s2, EvStop, Stop(s2));
  }

  // -------------------------------------------------------------------- object

  lemma PutTwice<K, V>(m: map<K, V>, k: K, v: V, w: V)
    ensures m[k := v][k := w] == m[k := w]
    ensures m[k := v] - {k} == m - {k}
  {
  }

  class Server {
    var sessions: map<Id, Config>
    var groups: Tree
    var drain: Option<nat>
    var made: nat
    var closed: seq<nat>
    var gauge: int
    var aborted: nat

    function State(): State
      reads this
    {
      Registries(sessions, groups, drain, made, closed, gauge, aborted)
    }

    constructor ()
      ensures Initial(State())
    {
      sessions, groups, drain, made, closed, gauge, aborted := map[], map[], None, 0, [], 0, 0;
    }

    /** The nested lookups that create the missing group and the missing call on the way. */
    method AddSession(cfg: Config, rtcOk: bool) returns (err: Option<Error>)
      modifies this
      ensures (State(), err) == Add(old(State()), cfg, rtcOk)
    {
      if !IsValid(cfg) { return Some(InvalidConfig); }
      gauge := gauge + 1;
      if !rtcOk {
        aborted := aborted + 1;
        return Some(InitFailed);
      }
      if cfg.group !in groups {
        groups := groups[cfg.group := map[]];
        PutTwice(old(groups), cfg.group, map[], map[cfg.call := map[cfg.session := cfg]]);
      }
      var calls := groups[cfg.group];
      if cfg.call !in calls {
        PutTwice(calls, cfg.call, map[], map[cfg.session := cfg]);
        calls := calls[cfg.call := map[]];
      }
      if cfg.session in calls[cfg.call] {
        aborted := aborted + 1;
        return Some(SessionExists);
      }
      groups := groups[cfg.group := calls[cfg.call := calls[cfg.call][cfg.session := cfg]]];
      sessions := sessions[cfg.session := cfg];
      return None;
    }

    method CloseSession(id: Id) returns (err: Option<Error>)
      modifies this
      ensures (State(), err) == Close(old(State()), id)
    {
      hide Prune, Unlisted;
      var ok := id in sessions;
      var cfg := if ok then sessions[id] else Config("", "", "", "");
      TakeOut(id);
      if !ok { return None; }
      gauge := gauge - 1;
      if cfg.group !in groups { return Some(GroupNotFound); }
      if cfg.call !in groups[cfg.group] { return Some(CallNotFound); }
      if cfg.session !in groups[cfg.group][cfg.call] { return Some(SessionNotFound); }
      DropFromTree(cfg);
      return None;
    }

    /** The part of CloseSession under the server's lock. */
    method TakeOut(id: Id)
      modifies this`sessions, this`drain, this`closed
      ensures State() == Unlisted(old(State()), id)
    {
      sessions := sessions - {id};
      if |sessions| == 0 && drain.Some? {
        closed := closed + [drain.value];
        drain := None;
      }
    }

    method DropFromTree(cfg: Config)
      requires InTree(groups, cfg.group, cfg.call, cfg.session)
      modifies this`groups
      ensures groups == Prune(old(groups), cfg)
    {
      var calls := groups[cfg.group];
      PutTwice(calls, cfg.call, calls[cfg.call] - {cfg.session}, map[]);
      calls := calls[cfg.call := calls[cfg.call] - {cfg.session}];
      if |calls[cfg.call]| == 0 {
        calls := calls - {cfg.call};
      }
      if |calls| == 0 {
        groups := groups - {cfg.group};
      } else {
        groups := groups[cfg.group := calls];
      }
    }

    method StartStopping()
      modifies this
      ensures State() == Stop(old(State()))
    {
      if |sessions| > 0 {
        drain := Some(made);
        made := made + 1;
      }
    }
  }
}
