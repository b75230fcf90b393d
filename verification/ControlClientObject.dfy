/** The control client as the object its goroutines share: the sections under its mutex as
    methods, and the reconnect loop as a loop, each proved to take the steps of ControlClient. */
module ControlClientObject {
  import opened C = ControlClient
  import opened Wrappers

  class Client {
    const interval: nat
    const callback: bool
    var closed: bool
    var conn: Option<nat>
    var readers: seq<Reader>
    var forwarders: seq<bool>
    var closer: Closer
    var receiveClosed: nat
    var errorClosed: nat
    var panics: nat

    ghost function Now(): State
      reads this
    {
      State(interval, callback, closed, conn, readers, forwarders, closer, receiveClosed, errorClosed, panics)
    }

    /** NewClient; the interval has been given its default if it was not positive. */
    constructor (reconnectInterval: nat, hasCallback: bool)
      requires reconnectInterval > 0
      ensures Initial(Now()) && interval == reconnectInterval && callback == hasCallback
    {
      interval, callback := reconnectInterval, hasCallback;
      closed, conn, readers, forwarders := false, None, [], [];
      closer, receiveClosed, errorClosed, panics := NotClosing, 0, 0, 0;
    }

    method Connect(dialOk: bool) returns (ok: bool)
      modifies this
      ensures (Now(), ok) == C.Connect(old(Now()), dialOk)
    {
      if closed { return false; }
      if conn.Some? { return false; }
      if !dialOk { return false; }
      conn := Some(|readers|);
      readers := readers + [Reading];
      forwarders := forwarders + [true];
      ok := true;
    }

    /** Close up to where it waits for the goroutines. */
    method StartClosing() returns (ok: bool)
      modifies this
      ensures Now() == C.Close(old(Now())) && (ok <==> Now() != old(Now()))
    {
      if closed { return false; }
      if conn.None? { return false; }
      conn := None;
      closed := true;
      closer := AwaitingReaders;
      ok := true;
    }

    method SendError()
      modifies this`panics
      ensures Now() == C.SendError(old(Now()))
    {
      if closed { return; }
      if errorClosed > 0 {
        panics := panics + 1;
      }
    }

    method CloseReceiveCh()
      modifies this`receiveClosed, this`panics
      ensures Now() == C.CloseReceiveCh(old(Now()))
    {
      if receiveClosed > 0 {
        panics := panics + 1;
      }
      receiveClosed := receiveClosed + 1;
    }

    method CloseErrorCh()
      modifies this`errorClosed, this`panics
      ensures Now() == C.CloseErrorChannel(old(Now()))
    {
      if errorClosed > 0 {
        panics := panics + 1;
      }
      errorClosed := errorClosed + 1;
    }

    /** What the reading goroutine does when its connection has ended. */
    method AfterReading(g: nat) returns (reconnect: bool)
      requires CanRead(Now(), C.AfterReading(g))
      modifies this`conn, this`readers
      ensures Now() == DoRead(old(Now()), C.AfterReading(g)) && (reconnect <==> old(conn).Some?)
    {
      if conn.Some? {
        conn := None;
        readers := readers[g := Sleeping(0, 0)];
        return true;
      }
      readers := readers[g := Leaving];
      reconnect := false;
    }

    /** The reconnect loop, undisturbed. It ends at the latest at attempt `last`, whose callback
        fails or whose dial succeeds; the steps it takes are those of reader g. */
    method ReconnectHandler(g: nat, callbackOk: nat -> bool, dialOk: nat -> bool, ghost last: nat)
      returns (ghost ss: seq<State>, ghost es: seq<Event>)
      requires g < |readers| && readers[g] == Sleeping(0, 0) && conn == None && !closed
      requires last > 0 && ((callback && !callbackOk(last)) || dialOk(last))
      modifies this
      ensures IsRun(ss, es) && |ss| == |es| + 1 && ss[0] == old(Now()) && ss[|es|] == Now()
      ensures forall i :: 0 <= i < |es| ==> StepOf(g, es[i])
      ensures g < |readers| && readers[g] == Leaving
      ensures conn.Some? <==> receiveClosed == old(receiveClosed)
    {
      ss, es := [Now()], [];
      hide IsRun, CanRead, DoRead;
      assert IsRun(ss, es) by { OneState(Now()); }
      var attempt, waitTime, over := 0, 0, false;
      while !over
        invariant |ss| == |es| + 1 && IsRun(ss, es) && ss[0] == old(Now()) && ss[|es|] == Now()
        invariant forall i :: 0 <= i < |es| ==> StepOf(g, es[i])
        invariant g < |readers| && readers[g] == if over then Leaving else Sleeping(attempt, waitTime)
        invariant !over ==> attempt < last && conn == None && !closed && receiveClosed == old(receiveClosed)
        invariant over ==> (conn.Some? <==> receiveClosed == old(receiveClosed))
        decreases !over, last - attempt
      {
        attempt := attempt + 1;
        waitTime := Rest(g, attempt, waitTime);
        ss, es := Then(ss, es, Sleep(g));
        if callback && !callbackOk(attempt) {
          ss, es := CallbackFailed(g, ss, es);
          over := true;
        } else {
          over, ss, es := Redial(g, attempt, waitTime, dialOk(attempt), ss, es);
        }
      }
    }

    /** The growing wait before an attempt. */
    method Rest(g: nat, attempt: nat, wait: nat) returns (waitTime: nat)
      requires attempt > 0 && g < |readers| && readers[g] == Sleeping(attempt - 1, wait)
      modifies this`readers
      ensures CanRead(old(Now()), Sleep(g)) && Now() == DoRead(old(Now()), Sleep(g))
      ensures readers == old(readers)[g := Calling(attempt, waitTime)]
    {
      waitTime := wait;
      if waitTime < MAX_RECONNECT_INTERVAL {
        waitTime := waitTime + interval;
      }
      readers := readers[g := Calling(attempt, waitTime)];
    }

    /** The callback let the attempt go on: connect, or report the failure and go round. */
    method Redial(g: nat, attempt: nat, waitTime: nat, dialOk: bool, ghost ss: seq<State>, ghost es: seq<Event>)
      returns (over: bool, ghost ss': seq<State>, ghost es': seq<Event>)
      requires g < |readers| && readers[g] == Calling(attempt, waitTime) && conn == None && !closed
      requires |ss| == |es| + 1 && IsRun(ss, es) && ss[|es|] == Now()
      modifies this
      ensures |ss'| == |es'| + 1 && IsRun(ss', es') && ss'[0] == ss[0] && ss'[|es'|] == Now()
      ensures es' == es + [Callback(g, true), Reconnect(g, dialOk)] + if over then [] else [Report(g)]
      ensures over <==> dialOk
      ensures g < |readers| && readers[g] == if over then Leaving else Sleeping(attempt, waitTime)
      ensures receiveClosed == old(receiveClosed) && (conn.Some? <==> over) && !closed
    {
      hide IsRun;
      readers := readers[g := Dialing(attempt, waitTime)];
      ss', es' := Then(ss, es, Callback(g, true));
      over := Connect(dialOk);
      if over {
        readers := readers[g := Leaving];
        ss', es' := Then(ss', es', Reconnect(g, dialOk));
        return;
      }
      readers := readers[g := DialFailed(attempt, waitTime)];
      ss', es' := Then(ss', es', Reconnect(g, dialOk));
      ss', es' := ReportDial(g, ss', es');
    }

    method ReportDial(g: nat, ghost ss: seq<State>, ghost es: seq<Event>)
      returns (ghost ss': seq<State>, ghost es': seq<Event>)
      requires g < |readers| && readers[g].DialFailed?
      requires |ss| == |es| + 1 && IsRun(ss, es) && ss[|es|] == Now()
      modifies this`readers, this`panics
      ensures |ss'| == |es'| + 1 && IsRun(ss', es') && ss'[0] == ss[0] && ss'[|es'|] == Now()
      ensures es' == es + [Report(g)]
      ensures readers == old(readers)[g := Sleeping(old(readers)[g].attempt, old(readers)[g].wait)]
    {
      hide IsRun;
      SendError();
      readers := readers[g := Sleeping(readers[g].attempt, readers[g].wait)];
      ss', es' := Then(ss, es, Report(g));
    }

    method CallbackFailed(g: nat, ghost ss: seq<State>, ghost es: seq<Event>)
      returns (ghost ss': seq<State>, ghost es': seq<Event>)
      requires g < |readers| && readers[g].Calling? && callback && conn == None
      requires |ss| == |es| + 1 && IsRun(ss, es) && ss[|es|] == Now()
      modifies this
      ensures |ss'| == |es'| + 1 && IsRun(ss', es') && ss'[0] == ss[0] && ss'[|es'|] == Now()
      ensures es' == es + [Callback(g, false), Report(g)] + [GiveUp(g), GiveUp(g), GiveUp(g)]
      ensures g < |readers| && readers[g] == Leaving && conn == None && receiveClosed == old(receiveClosed) + 1
    {
      hide IsRun;
      readers := readers[g := CallFailed];
      ss', es' := Then(ss, es, Callback(g, false));
      SendError();
      readers := readers[g := GivingUp];
      ss', es' := Then(ss', es', Report(g));
      ss', es' := GiveUpReconnecting(g, ss', es');
    }

    /** The end of the loop after a failed callback: mark closed, close both channels. */
    method GiveUpReconnecting(g: nat, ghost ss: seq<State>, ghost es: seq<Event>)
      returns (ghost ss': seq<State>, ghost es': seq<Event>)
      requires g < |readers| && readers[g] == GivingUp && conn == None
      requires |ss| == |es| + 1 && IsRun(ss, es) && ss[|es|] == Now()
      modifies this
      ensures |ss'| == |es'| + 1 && IsRun(ss', es') && ss'[0] == ss[0] && ss'[|es'|] == Now()
      ensures es' == es + [GiveUp(g), GiveUp(g), GiveUp(g)]
      ensures g < |readers| && readers[g] == Leaving && conn == None && receiveClosed == old(receiveClosed) + 1
    {
      hide IsRun;
      closed := true;
      readers := readers[g := ClosingReceive];
      ss', es' := Then(ss, es, GiveUp(g));
      ss', es' := CloseChannels(g, ss', es');
    }

    method CloseChannels(g: nat, ghost ss: seq<State>, ghost es: seq<Event>)
      returns (ghost ss': seq<State>, ghost es': seq<Event>)
      requires g < |readers| && readers[g] == ClosingReceive
      requires |ss| == |es| + 1 && IsRun(ss, es) && ss[|es|] == Now()
      modifies this`readers, this`receiveClosed, this`errorClosed, this`panics
      ensures |ss'| == |es'| + 1 && IsRun(ss', es') && ss'[0] == ss[0] && ss'[|es'|] == Now()
      ensures es' == es + [GiveUp(g), GiveUp(g)]
      ensures g < |readers| && readers[g] == Leaving && receiveClosed == old(receiveClosed) + 1
    {
      hide IsRun;
      CloseReceiveCh();
      readers := readers[g := ClosingError];
      ss', es' := Then(ss, es, GiveUp(g));
      CloseErrorCh();
      readers := readers[g := Leaving];
      ss', es' := Then(ss', es', GiveUp(g));
    }
  }

  predicate StepOf(g: nat, e: Event) {
    e == Sleep(g) || e == Report(g) || e == GiveUp(g) || e == Callback(g, true) || e == Callback(g, false)
    || e == Reconnect(g, true) || e == Reconnect(g, false)
  }

  lemma OneState(s: State)
    ensures IsRun([s], [])
  {
  }
}
