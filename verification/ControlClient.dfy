/** The reconnecting control client: user calls, one reading and one error-forwarding goroutine
    per connection, and the two output channels that Close or a failed reconnect callback closes.
    Each section under the client's mutex is one step. */
module ControlClient {
  import opened Wrappers

  /** maxReconnectInterval, in milliseconds. */
  const MAX_RECONNECT_INTERVAL: nat := 30_000

  /** Where the reading goroutine of one connection is: in msgReader, past it, in one of the
      places of reconnectHandler, giving up after the callback failed, or on its way out. */
  datatype Reader =
    | Reading
    | Ended
    | Sleeping(attempt: nat, wait: nat)
    | Calling(attempt: nat, wait: nat)
    | Dialing(attempt: nat, wait: nat)
    | DialFailed(attempt: nat, wait: nat)
    | CallFailed
    | GivingUp
    | ClosingReceive
    | ClosingError
    | Leaving
    | Done
  {
    predicate Reconnecting() { Sleeping? || Calling? || Dialing? || DialFailed? || CallFailed? || GivingUp? }

    predicate Waits() { Sleeping? || Calling? || Dialing? || DialFailed? }

    /** Nothing left to do but to leave the wait group. */
    predicate Over() { Leaving? || Done? }
  }

  datatype Closer = NotClosing | AwaitingReaders | ReceiveClosed | Finished

  /** `conn` is the connection in wsClient. `panics` counts sends on a closed channel and
      second closes. */
  datatype State = State(
    interval: nat,
    callback: bool,
    closed: bool,
    conn: Option<nat>,
    readers: seq<Reader>,
    forwarders: seq<bool>,
    closer: Closer,
    receiveClosed: nat,
    errorClosed: nat,
    panics: nat)

  ghost predicate Initial(s: State) {
    && s.interval > 0 && !s.closed && s.conn == None && s.readers == [] && s.forwarders == []
    && s.closer == NotClosing && s.receiveClosed == 0 && s.errorClosed == 0 && s.panics == 0
  }

  datatype Event =
    | UserConnect(dialOk: bool)
    | UserClose
    | CloseAwaited
    | CloseErrorCh
    | Receive(g: nat)
    | ReadError(g: nat)
    | ConnectionEnds(g: nat)
    | AfterReading(g: nat)
    | Sleep(g: nat)
    | Callback(g: nat, ok: bool)
    | Reconnect(g: nat, dialOk: bool)
    | Report(g: nat)
    | GiveUp(g: nat)
    | Leave(g: nat)
    | ForwardError(g: nat)
    | ForwarderEnds(g: nat)

  /** Connect; the flag is whether it returned without an error. */
  function Connect(s: State, dialOk: bool): (State, bool) {
    if s.closed || s.conn.Some? || !dialOk then (s, false)
    else
      (s.(conn := Some(|s.readers|), readers := s.readers + [Reading], forwarders := s.forwarders + [true]), true)
  }

  /** The guards of Close and what it does under the mutex. */
  function Close(s: State): State {
    if s.closed || s.conn.None? then s else s.(conn := None, closed := true, closer := AwaitingReaders)
  }

  function SendError(s: State): State {
    if s.closed then s else if s.errorClosed > 0 then s.(panics := s.panics + 1) else s
  }

  function SendMessage(s: State): State {
    if s.receiveClosed > 0 then s.(panics := s.panics + 1) else s
  }

  function CloseReceiveCh(s: State): State {
    s.(receiveClosed := s.receiveClosed + 1, panics := s.panics + if s.receiveClosed > 0 then 1 else 0)
  }

  function CloseErrorChannel(s: State): State {
    s.(errorClosed := s.errorClosed + 1, panics := s.panics + if s.errorClosed > 0 then 1 else 0)
  }

  function Goto(s: State, g: nat, r: Reader): State
    requires g < |s.readers|
  {
    s.(readers := s.readers[g := r])
  }

  function NextWait(s: State, wait: nat): nat {
    if wait < MAX_RECONNECT_INTERVAL then wait + s.interval else wait
  }

  predicate AllDone(s: State) {
    (forall g :: 0 <= g < |s.readers| ==> s.readers[g].Done?) && (forall g :: 0 <= g < |s.forwarders| ==> !s.forwarders[g])
  }

  predicate CanRead(s: State, e: Event) {
    match e
    case Receive(g) => g < |s.readers| && s.readers[g].Reading?
    case ReadError(g) => g < |s.readers| && s.readers[g].Reading?
    case ConnectionEnds(g) => g < |s.readers| && s.readers[g].Reading?
    case AfterReading(g) => g < |s.readers| && s.readers[g].Ended?
    case Sleep(g) => g < |s.readers| && s.readers[g].Sleeping?
    case Callback(g, ok) => g < |s.readers| && s.readers[g].Calling? && (s.callback || ok)
    case Reconnect(g, _) => g < |s.readers| && s.readers[g].Dialing?
    case Report(g) => g < |s.readers| && (s.readers[g].DialFailed? || s.readers[g].CallFailed?)
    case GiveUp(g) =>
      g < |s.readers| && (s.readers[g].GivingUp? || s.readers[g].ClosingReceive? || s.readers[g].ClosingError?)
    case Leave(g) => g < |s.readers| && s.readers[g].Leaving?
    case _ => false
  }

  predicate Can(s: State, e: Event) {
    match e
    case UserConnect(_) => true
    case UserClose => true
    case CloseAwaited => s.closer.AwaitingReaders? && AllDone(s)
    case CloseErrorCh => s.closer.ReceiveClosed?
    case ForwardError(g) => g < |s.forwarders| && s.forwarders[g]
    case ForwarderEnds(g) => g < |s.forwarders| && s.forwarders[g]
    case _ => CanRead(s, e)
  }

  /** The steps of the reading goroutine of connection g. */
  function DoRead(s: State, e: Event): State
    requires CanRead(s, e)
  {
    match e
    case Receive(g) => SendMessage(s)
    case ReadError(g) => SendError(s)
    case ConnectionEnds(g) => Goto(s, g, Ended)
    case AfterReading(g) =>
      if s.conn.Some? then Goto(s, g, Sleeping(0, 0)).(conn := None) else Goto(s, g, Leaving)
    case Sleep(g) =>
      Goto(s, g, Calling(s.readers[g].attempt + 1, NextWait(s, s.readers[g].wait)))
    case Callback(g, ok) =>
      if ok then Goto(s, g, Dialing(s.readers[g].attempt, s.readers[g].wait)) else Goto(s, g, CallFailed)
    case Reconnect(g, dialOk) =>
      var (s', ok) := Connect(s, dialOk);
      if ok then Goto(s', g, Leaving) else Goto(s', g, DialFailed(s.readers[g].attempt, s.readers[g].wait))
    case Report(g) =>
      if s.readers[g].CallFailed? then Goto(SendError(s), g, GivingUp)
      else Goto(SendError(s), g, Sleeping(s.readers[g].attempt, s.readers[g].wait))
    case GiveUp(g) =>
      if s.readers[g].GivingUp? then Goto(s, g, ClosingReceive).(closed := true)
      else if s.readers[g].ClosingReceive? then Goto(CloseReceiveCh(s), g, ClosingError)
      else Goto(CloseErrorChannel(s), g, Leaving)
    case Leave(g) => Goto(s, g, Done)
  }

  function Do(s: State, e: Event): State
    requires Can(s, e)
  {
    match e
    case UserConnect(dialOk) => Connect(s, dialOk).0
    case UserClose => Close(s)
    case CloseAwaited => CloseReceiveCh(s).(closer := ReceiveClosed)
    case CloseErrorCh => CloseErrorChannel(s).(closer := Finished)
    case ForwardError(g) => SendError(s)
    case ForwarderEnds(g) => s.(forwarders := s.forwarders[g := false])
    case _ => DoRead(s, e)
  }

  predicate Step(s: State, e: Event, s': State) { Can(s, e) && s' == Do(s, e) }

  predicate SomeReconnecting(s: State) { exists g :: 0 <= g < |s.readers| && s.readers[g].Reconnecting() }

  /** The user does not connect while the client is reconnecting by itself; this holds of every
      user who stops calling Connect once it has succeeded. */
  predicate Orderly(s: State, e: Event) { e.UserConnect? ==> !SomeReconnecting(s) }

  ghost predicate IsRun(ss: seq<State>, es: seq<Event>) {
    && |ss| == |es| + 1
    && forall i :: 0 <= i < |es| ==> Step(ss[i], es[i], ss[i + 1])
  }

  ghost predicate OrderlyRun(ss: seq<State>, es: seq<Event>) {
    && IsRun(ss, es) && Initial(ss[0])
    && forall i :: 0 <= i < |es| ==> Orderly(ss[i], es[i])
  }

  // ------------------------------------------------------------------ invariant

  /** Only the newest connection's reader is still at work, and wsClient is its connection. */
  predicate OneReader(s: State) {
    var n := |s.readers|;
    && |s.forwarders| == n
    && (forall g :: 0 <= g < n - 1 ==> s.readers[g].Over())
    && (s.conn.Some? ==> n > 0 && s.conn.value == n - 1 && !s.closed && (s.readers[n - 1].Reading? || s.readers[n - 1].Ended?))
    && (n > 0 && !s.closed && s.conn.None? ==> s.readers[n - 1].Reconnecting())
  }

  /** Who closes the channels, and how far that has come. */
  predicate Channels(s: State) {
    var last := if s.readers == [] then Done else s.readers[|s.readers| - 1];
    match s.closer
    case NotClosing =>
      if !s.closed then s.receiveClosed == 0 && s.errorClosed == 0 && !last.ClosingReceive? && !last.ClosingError?
      else if last.ClosingReceive? then s.receiveClosed == 0 && s.errorClosed == 0
      else if last.ClosingError? then s.receiveClosed == 1 && s.errorClosed == 0
      else last.Over() && s.receiveClosed == 1 && s.errorClosed == 1
    case AwaitingReaders =>
      s.closed && s.receiveClosed == 0 && s.errorClosed == 0 && (last.Reading? || last.Ended? || last.Over())
    case ReceiveClosed => s.closed && s.receiveClosed == 1 && s.errorClosed == 0 && AllDone(s)
    case Finished => s.closed && s.receiveClosed == 1 && s.errorClosed == 1 && AllDone(s)
  }

  /** Until it reaches the maximum the wait is the number of attempts times the interval. */
  predicate WaitOk(s: State, r: Reader) {
    r.Waits() ==>
      && r.wait < MAX_RECONNECT_INTERVAL + s.interval
      && (r.wait < MAX_RECONNECT_INTERVAL ==> r.wait == r.attempt * s.interval)
  }

  predicate Inv(s: State) {
    && OneReader(s) && Channels(s) && s.panics == 0 && s.interval > 0
    && forall g :: 0 <= g < |s.readers| ==> WaitOk(s, s.readers[g])
  }

  lemma SleepWait(s: State, r: Reader)
    requires WaitOk(s, r) && r.Sleeping? && s.interval > 0
    ensures WaitOk(s, Calling(r.attempt + 1, NextWait(s, r.wait)))
  {
    assert (r.attempt + 1) * s.interval == r.attempt * s.interval + s.interval;
  }

  predicate IsReading(e: Event) {
    e.Receive? || e.ReadError? || e.ConnectionEnds? || e.AfterReading?
  }

  predicate IsReconnecting(e: Event) { e.Sleep? || e.Callback? || e.Reconnect? || e.Report? }

  lemma ReadKeeps(s: State, e: Event)
    requires Inv(s) && CanRead(s, e)
    ensures Inv(DoRead(s, e))
  {
    hide Inv;
    if IsReading(e) {
      ReadingKeeps(s, e);
    } else if IsReconnecting(e) {
      ReconnectingKeeps(s, e);
    } else if e.Leave? {
      LeaveKeeps(s, e.g);
    } else {
      GivingUpKeeps(s, e.g);
    }
  }

  lemma ReadingKeeps(s: State, e: Event)
    requires Inv(s) && CanRead(s, e) && IsReading(e)
    ensures Inv(DoRead(s, e))
  {
    assert e.g == |s.readers| - 1;
  }

  lemma ReconnectingKeeps(s: State, e: Event)
    requires Inv(s) && CanRead(s, e) && IsReconnecting(e)
    ensures Inv(DoRead(s, e))
  {
    assert e.g == |s.readers| - 1;
    if e.Sleep? {
      SleepWait(s, s.readers[e.g]);
    }
  }

  lemma GivingUpKeeps(s: State, g: nat)
    requires Inv(s) && CanRead(s, GiveUp(g))
    ensures Inv(DoRead(s, GiveUp(g)))
  {
    assert g == |s.readers| - 1;
  }

  lemma LeaveKeeps(s: State, g: nat)
    requires Inv(s) && CanRead(s, Leave(g))
    ensures Inv(DoRead(s, Leave(g)))
  {
  }

  lemma StepKeeps(s: State, e: Event, s': State)
    requires Inv(s) && Step(s, e, s') && Orderly(s, e)
    ensures Inv(s')
  {
    if CanRead(s, e) {
      ReadKeeps(s, e);
    } else {
      UserKeeps(s, e);
    }
  }

  lemma UserKeeps(s: State, e: Event)
    requires Inv(s) && Can(s, e) && !CanRead(s, e) && Orderly(s, e)
    ensures Inv(Do(s, e))
  {
  }

  /** In every interleaving of user calls, lost connections and reconnect attempts in which the
      user does not connect while the client reconnects. */
  lemma {:induction false} RunsKeepInv(ss: seq<State>, es: seq<Event>, i: nat)
    requires OrderlyRun(ss, es) && i < |ss|
    ensures Inv(ss[i])
  {
    if i > 0 {
      RunsKeepInv(ss, es, i - 1);
      hide Inv, Initial;
      StepKeeps(ss[i - 1], es[i - 1], ss[i]);
    }
  }

  // ------------------------------------------------------------------ theorems

  /** No send on a closed channel and no second close. */
  lemma ChannelsAreSafe(ss: seq<State>, es: seq<Event>, i: nat)
    requires OrderlyRun(ss, es) && i < |ss|
    ensures ss[i].panics == 0 && ss[i].receiveClosed <= 1 && ss[i].errorClosed <= ss[i].receiveClosed
    ensures ss[i].errorClosed == 1 ==> ss[i].closed && !SomeReconnecting(ss[i])
  {
    RunsKeepInv(ss, es, i);
    hide WaitOk, IsRun;
  }

  /** What the Go runtime answers with a panic: a message to a closed channel, an error to one unless
      the client counts as closed, and closing a closed channel. */
  predicate Panicking(s: State, e: Event)
    requires Can(s, e)
  {
    || (e.Receive? && s.receiveClosed > 0)
    || ((e.ReadError? || e.Report? || e.ForwardError?) && !s.closed && s.errorClosed > 0)
    || Do(s, e).receiveClosed > s.receiveClosed > 0
    || Do(s, e).errorClosed > s.errorClosed > 0
  }

  lemma StepPanics(s: State, e: Event)
    requires Can(s, e)
    ensures Do(s, e).panics == s.panics + if Panicking(s, e) then 1 else 0
  {
    if CanRead(s, e) {
      ReadPanics(s, e);
    }
  }

  lemma ReadPanics(s: State, e: Event)
    requires CanRead(s, e)
    ensures DoRead(s, e).panics == s.panics + if Panicking(s, e) then 1 else 0
  {
  }

  ghost function Panics(ss: seq<State>, es: seq<Event>, i: nat): nat
    requires IsRun(ss, es) && i <= |es|
  {
    if i == 0 then 0
    else
      assert Step(ss[i - 1], es[i - 1], ss[i]);
      Panics(ss, es, i - 1) + if Panicking(ss[i - 1], es[i - 1]) then 1 else 0
  }

  /** The counter of the model counts the panics, on every run. */
  lemma {:induction false} PanicsAreCounted(ss: seq<State>, es: seq<Event>, i: nat)
    requires IsRun(ss, es) && Initial(ss[0]) && i <= |es|
    ensures ss[i].panics == Panics(ss, es, i)
  {
    if i > 0 {
      PanicsAreCounted(ss, es, i - 1);
      assert Step(ss[i - 1], es[i - 1], ss[i]);
      hide IsRun, Initial, Can, Do, Panicking;
      StepPanics(ss[i - 1], es[i - 1]);
    }
  }

  /** The reconnect wait grows by the interval per attempt and stays below the maximum plus
      one interval. */
  lemma WaitIsBounded(ss: seq<State>, es: seq<Event>, i: nat, g: nat)
    requires OrderlyRun(ss, es) && i < |ss| && g < |ss[i].readers| && ss[i].readers[g].Waits()
    ensures var r := ss[i].readers[g];
      && r.wait < MAX_RECONNECT_INTERVAL + ss[i].interval
      && (r.wait < MAX_RECONNECT_INTERVAL ==> r.wait == r.attempt * ss[i].interval)
  {
    RunsKeepInv(ss, es, i);
    hide IsRun, OneReader, Channels;
  }

  /** Close is refused exactly when the client is closed, was never connected, or is
      reconnecting, and once it is accepted no reader reconnects any more. */
  lemma CloseRefusedIff(ss: seq<State>, es: seq<Event>, i: nat)
    requires OrderlyRun(ss, es) && i < |ss|
    ensures Do(ss[i], UserClose) == ss[i] <==> ss[i].closed || ss[i].readers == [] || SomeReconnecting(ss[i])
    ensures Do(ss[i], UserClose) != ss[i] ==>
              Do(ss[i], UserClose) == ss[i].(conn := None, closed := true, closer := AwaitingReaders)
    ensures ss[i].closer != NotClosing ==> !SomeReconnecting(ss[i])
  {
    RunsKeepInv(ss, es, i);
    hide WaitOk, IsRun;
  }

  // ------------------------------------------------------------------ Close ends

  function Rank(r: Reader): nat {
    match r case Reading => 3 case Ended => 2 case Leaving => 1 case _ => 0
  }

  function ReadersLeft(rs: seq<Reader>): nat {
    if rs == [] then 0 else ReadersLeft(rs[..|rs| - 1]) + Rank(rs[|rs| - 1])
  }

  function ForwardersLeft(fs: seq<bool>): nat {
    if fs == [] then 0 else ForwardersLeft(fs[..|fs| - 1]) + if fs[|fs| - 1] then 1 else 0
  }

  /** The steps left before Close returns. */
  function Left(s: State): nat {
    ReadersLeft(s.readers) + ForwardersLeft(s.forwarders)
    + match s.closer case AwaitingReaders => 2 case ReceiveClosed => 1 case _ => 0
  }

  lemma {:induction false} ReaderMoves(rs: seq<Reader>, g: nat, r: Reader)
    requires g < |rs|
    ensures ReadersLeft(rs[g := r]) + Rank(rs[g]) == ReadersLeft(rs) + Rank(r)
  {
    var n := |rs| - 1;
    if g < n {
      ReaderMoves(rs[..n], g, r);
      assert rs[g := r][..n] == rs[..n][g := r];
    } else {
      assert rs[g := r][..n] == rs[..n];
    }
  }

  lemma {:induction false} ForwarderMoves(fs: seq<bool>, g: nat)
    requires g < |fs| && fs[g]
    ensures ForwardersLeft(fs[g := false]) + 1 == ForwardersLeft(fs)
  {
    var n := |fs| - 1;
    if g < n {
      ForwarderMoves(fs[..n], g);
      assert fs[g := false][..n] == fs[..n][g := false];
    } else {
      assert fs[g := false][..n] == fs[..n];
    }
  }

  /** Neither a call of the user nor a message or an error that comes in. */
  predicate IsWork(e: Event) { !(e.UserConnect? || e.UserClose? || e.Receive? || e.ReadError? || e.ForwardError?) }

  lemma ReadWorks(s: State, e: Event)
    requires OneReader(s) && Channels(s) && s.closer != NotClosing && CanRead(s, e)
    ensures Left(DoRead(s, e)) + (if IsWork(e) then 1 else 0) <= Left(s) && DoRead(s, e).closer == s.closer
  {
    if IsWork(e) {
      var g := e.g;
      assert s.readers[g] == s.readers[|s.readers| - 1] || s.readers[g].Over();
      ReaderMoves(s.readers, g, DoRead(s, e).readers[g]);
      hide ReadersLeft, ForwardersLeft;
    }
  }

  lemma StepWorks(s: State, e: Event, s': State)
    requires OneReader(s) && Channels(s) && s.closer != NotClosing && Step(s, e, s')
    ensures s'.closer != NotClosing && Left(s') + (if IsWork(e) then 1 else 0) <= Left(s)
  {
    if CanRead(s, e) {
      ReadWorks(s, e);
    } else if e.ForwarderEnds? {
      ForwarderMoves(s.forwarders, e.g);
    }
    hide OneReader, CanRead, DoRead, ReadersLeft, ForwardersLeft, AllDone;
  }

  ghost function Work(es: seq<Event>, i: nat, j: nat): nat
    requires i <= j <= |es|
  {
    if i == j then 0 else Work(es, i, j - 1) + if IsWork(es[j - 1]) then 1 else 0
  }

  lemma {:induction false} WorkIsBounded(ss: seq<State>, es: seq<Event>, i: nat, j: nat)
    requires OrderlyRun(ss, es) && i <= j <= |es| && ss[i].closer != NotClosing
    ensures ss[j].closer != NotClosing && Left(ss[j]) + Work(es, i, j) <= Left(ss[i])
  {
    hide *;
    if i < j {
      WorkIsBounded(ss, es, i, j - 1);
      StepOfRun(ss, es, j - 1);
      RunsKeepInv(ss, es, j - 1);
      InvSays(ss[j - 1]);
      StepWorks(ss[j - 1], es[j - 1], ss[j]);
      WorkOneMore(es, i, j);
    } else {
      WorkOneMore(es, i, j);
    }
  }

  lemma StepOfRun(ss: seq<State>, es: seq<Event>, i: nat)
    requires OrderlyRun(ss, es) && i < |es|
    ensures |ss| == |es| + 1 && Step(ss[i], es[i], ss[i + 1])
  {
    hide Step;
  }

  lemma InvSays(s: State)
    requires Inv(s)
    ensures OneReader(s) && Channels(s)
  {
    hide OneReader, Channels, WaitOk;
  }

  lemma WorkOneMore(es: seq<Event>, i: nat, j: nat)
    requires i <= j <= |es|
    ensures Work(es, i, j) == if i == j then 0 else Work(es, i, j - 1) + if IsWork(es[j - 1]) then 1 else 0
  {
  }

  /** Until Close has returned, something it waits for can go on. */
  lemma WorkIsEnabled(s: State) returns (e: Event)
    requires OneReader(s) && Channels(s) && s.closer != NotClosing && !s.closer.Finished?
    ensures Can(s, e) && IsWork(e)
  {
    if g :| 0 <= g < |s.readers| && !s.readers[g].Done? {
      assert s.readers[g] == s.readers[|s.readers| - 1] || s.readers[g].Over();
      e := if s.readers[g].Reading? then ConnectionEnds(g)
           else if s.readers[g].Ended? then AfterReading(g)
           else Leave(g);
    } else if g :| 0 <= g < |s.forwarders| && s.forwarders[g] {
      e := ForwarderEnds(g);
    } else {
      e := if s.closer.AwaitingReaders? then CloseAwaited else CloseErrorCh;
    }
  }

  /** Once Close is accepted the goroutines take at most so many more steps, whatever the user calls
      and whatever comes in meanwhile; and when none is left, Close has returned and has closed both
      channels, once each. */
  lemma CloseFinishes(ss: seq<State>, es: seq<Event>, i: nat, j: nat)
    requires OrderlyRun(ss, es) && i <= j <= |es| && ss[i].closer != NotClosing
    ensures Work(es, i, j) <= Left(ss[i])
    ensures (forall e :: Can(ss[j], e) ==> !IsWork(e)) ==>
              ss[j].closer.Finished? && AllDone(ss[j]) && ss[j].receiveClosed == ss[j].errorClosed == 1
  {
    WorkIsBounded(ss, es, i, j);
    RunsKeepInv(ss, es, j);
    hide OrderlyRun, IsRun;
    if !ss[j].closer.Finished? {
      var e := WorkIsEnabled(ss[j]);
    }
  }

  /** One more step at the end of a run. */
  lemma Then(ss: seq<State>, es: seq<Event>, e: Event) returns (ss': seq<State>, es': seq<Event>)
    requires IsRun(ss, es) && Can(ss[|es|], e)
    ensures IsRun(ss', es') && es' == es + [e] && |ss'| == |es'| + 1
    ensures ss'[0] == ss[0] && ss'[|es'|] == Do(ss[|es|], e)
  {
    hide Do, Can;
    ss', es' := ss + [Do(ss[|es|], e)], es + [e];
  }

  /** A user's Connect while reader g sleeps, and then g's callback fails. */
  lemma ConnectThenCallbackFails(s: State, g: nat) returns (ss: seq<State>, es: seq<Event>)
    requires Inv(s) && s.callback && g < |s.readers| && s.readers[g].Sleeping?
    ensures IsRun(ss, es) && |es| == 4 && ss[0] == s && es[0] == UserConnect(true)
    ensures var t := ss[4];
      && t.panics == 0 && t.receiveClosed == 0
      && |t.readers| == |s.readers| + 1 && t.readers[|s.readers|].Reading? && t.readers[g].GivingUp?
  {
    ss, es := [s], [];
    ss, es := Then(ss, es, UserConnect(true));
    ss, es := Then(ss, es, Sleep(g));
    ss, es := Then(ss, es, Callback(g, false));
    ss, es := Then(ss, es, Report(g));
  }

  /** The condition on the user is needed wherever a reconnect callback is set: from every
      state in which the client sleeps before a reconnect, a successful Connect by the user
      can be followed by a send on the closed receive channel. */
  lemma ConnectWhileReconnectingCanPanic(s: State, g: nat) returns (ss: seq<State>, es: seq<Event>)
    requires Inv(s) && s.callback && g < |s.readers| && s.readers[g].Sleeping?
    ensures IsRun(ss, es) && ss[0] == s && ss[|es|].panics == 1
    ensures es != [] && es[0] == UserConnect(true)
  {
    ss, es := ConnectThenCallbackFails(s, g);
    hide Inv, IsRun;
    ss, es := Then(ss, es, GiveUp(g));
    ss, es := Then(ss, es, GiveUp(g));
    ss, es := Then(ss, es, Receive(|s.readers|));
  }

  /** Such a state is reached: a connection that ends is enough. */
  lemma ReconnectingIsReached(s: State) returns (ss: seq<State>, es: seq<Event>)
    requires Initial(s) && s.callback
    ensures OrderlyRun(ss, es) && ss[0] == s
    ensures var t := ss[|es|]; Inv(t) && t.callback && |t.readers| == 1 && t.readers[0].Sleeping?
  {
    ss, es := [s], [];
    ss, es := Then(ss, es, UserConnect(true));
    ss, es := Then(ss, es, ConnectionEnds(0));
    ss, es := Then(ss, es, AfterReading(0));
    assert es == [UserConnect(true), ConnectionEnds(0), AfterReading(0)];
    assert OrderlyRun(ss, es) by { hide Inv; }
    hide IsRun;
    RunsKeepInv(ss, es, |es|);
  }

  // --------------------------------------------------------- without a callback

  /** Without a reconnect callback only Close closes the channels, after every reader is done. */
  predicate QuietInv(s: State) {
    && s.panics == 0 && !s.callback && |s.readers| == |s.forwarders|
    && (s.closed <==> s.closer != NotClosing)
    && s.receiveClosed == (if s.closer.ReceiveClosed? || s.closer.Finished? then 1 else 0)
    && s.errorClosed == (if s.closer.Finished? then 1 else 0)
    && (s.receiveClosed == 1 ==> AllDone(s))
    && forall g :: 0 <= g < |s.readers| ==> QuietReader(s.readers[g])
  }

  predicate QuietReader(r: Reader) { !(r.CallFailed? || r.GivingUp? || r.ClosingReceive? || r.ClosingError?) }

  lemma QuietStep(s: State, e: Event, s': State)
    requires QuietInv(s) && Step(s, e, s')
    ensures QuietInv(s')
  {
    if CanRead(s, e) {
      QuietRead(s, e);
    }
  }

  lemma QuietRead(s: State, e: Event)
    requires QuietInv(s) && CanRead(s, e)
    ensures QuietInv(DoRead(s, e))
  {
    assert QuietReader(s.readers[e.g]);
    assert s.receiveClosed == 0;
  }

  /** Without a callback the channels are safe on every run, whenever the user connects. */
  lemma {:induction false} QuietRunsAreSafe(ss: seq<State>, es: seq<Event>, i: nat)
    requires IsRun(ss, es) && Initial(ss[0]) && !ss[0].callback && i < |ss|
    ensures QuietInv(ss[i])
  {
    if i > 0 {
      QuietRunsAreSafe(ss, es, i - 1);
      hide QuietInv;
      QuietStep(ss[i - 1], es[i - 1], ss[i]);
    }
  }
}
