/** The sliding-window rate limiter, proved against the history of accepted requests of each
    key. Times are milliseconds of a clock that never goes back. */
module RateLimiting {
  import opened Wrappers

  /** The cleaner forgets what is older: the longest window any caller may use. */
  const LONGEST_WINDOW: int := 15 * 60 * 1000

  datatype Options = Options(windowMs: int, maxRequests: nat)

  /** `resetAt` is None where the original computes it from a missing timestamp. */
  datatype Answer = Answer(success: bool, remaining: nat, resetAt: Option<int>)

  /** The timestamps later than `start`, in order. */
  function After(ts: seq<int>, start: int): (r: seq<int>)
    ensures forall i :: 0 <= i < |r| ==> r[i] > start
  {
    if ts == [] then [] else
      var rest := After(ts[..|ts| - 1], start);
      if ts[|ts| - 1] > start then rest + [ts[|ts| - 1]] else rest
  }

  /** The answer to a request at `now`, by the requests accepted before it. */
  function Respond(accepted: seq<int>, o: Options, now: int): Answer {
    var recent := After(accepted, now - o.windowMs);
    if |recent| >= o.maxRequests then
      Answer(false, 0, if recent == [] then None else Some(recent[0] + o.windowMs))
    else
      Answer(true, o.maxRequests - |recent| - 1, Some((recent + [now])[0] + o.windowMs))
  }

  /** The accepted requests after one more request. */
  function Accept(accepted: seq<int>, o: Options, now: int): seq<int> {
    if Respond(accepted, o, now).success then accepted + [now] else accepted
  }

  predicate Sorted(ts: seq<int>) { forall i, j :: 0 <= i <= j < |ts| ==> ts[i] <= ts[j] }

  /** In order, and any maxRequests + 1 of them span at least the window. */
  predicate Legal(accepted: seq<int>, o: Options) {
    && Sorted(accepted)
    && forall i :: 0 <= i < |accepted| - o.maxRequests ==> accepted[i + o.maxRequests] - accepted[i] >= o.windowMs
  }

  predicate NotAfter(ts: seq<int>, now: int) { forall i :: 0 <= i < |ts| ==> ts[i] <= now }

  // ------------------------------------------------------------------ filtering

  lemma {:induction false} AfterAfter(ts: seq<int>, a: int, b: int)
    requires a <= b
    ensures After(After(ts, a), b) == After(ts, b)
  {
    if ts != [] {
      AfterAfter(ts[..|ts| - 1], a, b);
      var rest := After(ts[..|ts| - 1], a);
      assert (rest + [ts[|ts| - 1]])[..|rest|] == rest;
    }
  }

  lemma AfterAppend(ts: seq<int>, t: int, start: int)
    ensures After(ts + [t], start) == if t > start then After(ts, start) + [t] else After(ts, start)
  {
    assert (ts + [t])[..|ts|] == ts;
  }

  lemma {:induction false} NoneAfter(ts: seq<int>, start: int)
    requires NotAfter(ts, start)
    ensures After(ts, start) == []
  {
    if ts != [] {
      NoneAfter(ts[..|ts| - 1], start);
    }
  }

  /** `r` is the end of `ts` that is later than `start`. */
  predicate IsEnd(ts: seq<int>, start: int, r: seq<int>) {
    var n := |r|;
    && n <= |ts| && r == ts[|ts| - n..]
    && (forall i :: 0 <= i < |ts| - n ==> ts[i] <= start)
    && (forall i :: |ts| - n <= i < |ts| ==> ts[i] > start)
  }

  lemma EndAppend(ts: seq<int>, start: int, r: seq<int>, t: int)
    requires IsEnd(ts, start, r) && t > start
    ensures IsEnd(ts + [t], start, r + [t])
  {
  }

  lemma {:induction false} AfterIsEnd(ts: seq<int>, start: int)
    requires Sorted(ts)
    ensures IsEnd(ts, start, After(ts, start))
  {
    if ts != [] {
      var front, t := ts[..|ts| - 1], ts[|ts| - 1];
      if t <= start {
        NoneAfter(ts, start);
      } else {
        AfterIsEnd(front, start);
        assert After(ts, start) == After(front, start) + [t] && front + [t] == ts;
        hide After, IsEnd;
        EndAppend(front, start, After(front, start), t);
      }
    }
  }

  /** Of sorted timestamps the recent ones are a suffix. */
  lemma AfterIsSuffix(ts: seq<int>, start: int)
    requires Sorted(ts)
    ensures var n := |After(ts, start)|;
      && n <= |ts| && After(ts, start) == ts[|ts| - n..]
      && (forall i :: 0 <= i < |ts| - n ==> ts[i] <= start)
      && (forall i :: |ts| - n <= i < |ts| ==> ts[i] > start)
  {
    hide After, Sorted;
    AfterIsEnd(ts, start);
  }

  /** How the end shrinks as time goes on. */
  lemma EndShrinks(ts: seq<int>, start: int, r: seq<int>, later: int, r': seq<int>)
    requires IsEnd(ts, start, r) && IsEnd(ts, later, r') && start <= later && r != []
    ensures |r'| <= |r| && (|r'| == |r| <==> r[0] > later)
  {
    var n, n' := |r|, |r'|;
    assert r[0] == ts[|ts| - n];
    assert n < |ts| ==> ts[|ts| - n - 1] <= start;
  }

  // ------------------------------------------------------------------- the limit

  /** No window ever holds more than maxRequests accepted requests. */
  lemma WindowNeverOverfull(accepted: seq<int>, o: Options, now: int)
    requires Legal(accepted, o) && NotAfter(accepted, now)
    ensures |After(accepted, now - o.windowMs)| <= o.maxRequests
  {
    AfterIsSuffix(accepted, now - o.windowMs);
    if |accepted| > o.maxRequests {
      var i := |accepted| - o.maxRequests - 1;
      assert accepted[i + o.maxRequests] - accepted[i] >= o.windowMs;
    }
  }

  /** A request is rejected exactly when maxRequests accepted ones lie in the last window. */
  lemma RejectedIffWindowFull(accepted: seq<int>, o: Options, now: int)
    requires Legal(accepted, o) && NotAfter(accepted, now)
    ensures !Respond(accepted, o, now).success <==> |After(accepted, now - o.windowMs)| == o.maxRequests
  {
    WindowNeverOverfull(accepted, o, now);
  }

  /** Any maxRequests + 1 accepted requests keep spanning at least the window. */
  lemma AcceptKeepsLegal(accepted: seq<int>, o: Options, now: int)
    requires Legal(accepted, o) && NotAfter(accepted, now)
    ensures Legal(Accept(accepted, o, now), o) && NotAfter(Accept(accepted, o, now), now)
  {
    AllSorted(accepted, now);
    if Respond(accepted, o, now).success {
      forall i | 0 <= i < |accepted| + 1 - o.maxRequests
        ensures (accepted + [now])[i + o.maxRequests] - (accepted + [now])[i] >= o.windowMs
      {
        if i + o.maxRequests == |accepted| {
          OldEnough(accepted, o, now, i);
        }
      }
    }
  }

  /** An accepted request finds the one it pushes out of the limit out of the window. */
  lemma OldEnough(accepted: seq<int>, o: Options, now: int, i: nat)
    requires Sorted(accepted) && Respond(accepted, o, now).success && i + o.maxRequests == |accepted|
    ensures i < |accepted| ==> now - accepted[i] >= o.windowMs
    ensures o.maxRequests > 0
  {
    hide After;
    AfterIsSuffix(accepted, now - o.windowMs);
  }

  // -------------------------------------------------------------------- the runs

  /** The requests accepted out of the requests at times qs. */
  function Run(accepted: seq<int>, o: Options, qs: seq<int>): seq<int>
    decreases |qs|
  {
    if qs == [] then accepted else Run(Accept(accepted, o, qs[0]), o, qs[1..])
  }

  /** Whatever the requests, those accepted respect the limit. */
  lemma {:induction false} RunsAreLegal(accepted: seq<int>, o: Options, qs: seq<int>)
    requires Legal(accepted, o) && Sorted(qs) && (qs != [] ==> NotAfter(accepted, qs[0]))
    ensures Legal(Run(accepted, o, qs), o)
    decreases |qs|
  {
    if qs != [] {
      AcceptKeepsLegal(accepted, o, qs[0]);
      RunsAreLegal(Accept(accepted, o, qs[0]), o, qs[1..]);
    }
  }

  /** A rejection depends on the maxRequests-th latest accepted request alone. */
  lemma FullWindow(accepted: seq<int>, o: Options, now: int)
    requires Legal(accepted, o) && NotAfter(accepted, now) && o.maxRequests > 0
    ensures var nth := |accepted| - o.maxRequests;
      && (!Respond(accepted, o, now).success <==> nth >= 0 && accepted[nth] > now - o.windowMs)
      && (!Respond(accepted, o, now).success ==>
            Respond(accepted, o, now) == Answer(false, 0, Some(accepted[nth] + o.windowMs)))
  {
    WindowNeverOverfull(accepted, o, now);
    AfterIsSuffix(accepted, now - o.windowMs);
    hide After, Legal, NotAfter;
  }

  /** After a rejection `resetAt` is the exact moment at which a request succeeds again. */
  lemma ResetAtIsExact(accepted: seq<int>, o: Options, now: int, later: int)
    requires Legal(accepted, o) && NotAfter(accepted, now) && now <= later
    requires !Respond(accepted, o, now).success && o.maxRequests > 0
    ensures Respond(accepted, o, now).resetAt.Some?
    ensures var at := Respond(accepted, o, now).resetAt.value;
      && now < at
      && (Respond(accepted, o, later).success <==> later >= at)
      && (later < at ==> Respond(accepted, o, later) == Respond(accepted, o, now))
  {
    FullWindow(accepted, o, now);
    FullWindow(accepted, o, later);
    hide Respond, Legal;
  }

  /** After an accepted request `resetAt` is the exact moment at which the first of the requests now
      in the window leaves it: until then all of them count, from then on fewer. */
  lemma AcceptedResetsAt(accepted: seq<int>, o: Options, now: int, later: int)
    requires Sorted(accepted) && NotAfter(accepted, now) && now <= later && o.windowMs > 0
    requires Respond(accepted, o, now).success
    ensures Respond(accepted, o, now).resetAt.Some?
    ensures var at, counted := Respond(accepted, o, now).resetAt.value, |After(accepted + [now], now - o.windowMs)|;
      && now < at <= now + o.windowMs
      && counted + Respond(accepted, o, now).remaining == o.maxRequests
      && (later < at ==> |After(accepted + [now], later - o.windowMs)| == counted)
      && (later >= at ==> |After(accepted + [now], later - o.windowMs)| < counted)
  {
    hide After, IsEnd, Sorted, NotAfter;
    var all, start := accepted + [now], now - o.windowMs;
    AfterAppend(accepted, now, start);
    AllSorted(accepted, now);
    AfterIsEnd(all, start);
    AfterIsEnd(all, later - o.windowMs);
    FirstIsRecent(all, start, After(all, start), now);
    EndShrinks(all, start, After(all, start), later - o.windowMs, After(all, later - o.windowMs));
  }

  lemma AllSorted(accepted: seq<int>, now: int)
    requires Sorted(accepted) && NotAfter(accepted, now)
    ensures Sorted(accepted + [now]) && NotAfter(accepted + [now], now)
  {
  }

  lemma FirstIsRecent(ts: seq<int>, start: int, r: seq<int>, now: int)
    requires IsEnd(ts, start, r) && r != [] && NotAfter(ts, now)
    ensures start < r[0] <= now
  {
    assert r[0] == ts[|ts| - |r|];
  }

  /** Requests made before `resetAt` are all rejected and leave nothing behind. */
  lemma {:induction false} HammeringIsFutile(accepted: seq<int>, o: Options, now: int, qs: seq<int>)
    requires Legal(accepted, o) && NotAfter(accepted, now)
    requires !Respond(accepted, o, now).success
    requires forall i :: 0 <= i < |qs| ==>
      now <= qs[i] && (o.maxRequests == 0 || (var at := Respond(accepted, o, now).resetAt; at.Some? ==> qs[i] < at.value))
    ensures Run(accepted, o, qs) == accepted
  {
    if qs != [] {
      if o.maxRequests > 0 {
        ResetAtIsExact(accepted, o, now, qs[0]);
      }
      HammeringIsFutile(accepted, o, now, qs[1..]);
    }
  }

  /** k requests at one time. */
  function Burst(now: int, k: nat): (qs: seq<int>)
    ensures |qs| == k && forall i :: 0 <= i < k ==> qs[i] == now
  {
    if k == 0 then [] else [now] + Burst(now, k - 1)
  }

  lemma AcceptedLeavesOneLess(accepted: seq<int>, o: Options, now: int)
    requires Respond(accepted, o, now).success && o.windowMs > 0
    ensures var r, next := Respond(accepted, o, now), Respond(accepted + [now], o, now);
      && (next.success <==> r.remaining > 0)
      && (next.success ==> next.remaining == r.remaining - 1)
  {
    AfterAppend(accepted, now, now - o.windowMs);
    hide After;
  }

  /** `remaining` counts exactly the further requests that succeed at once. */
  lemma {:induction false} RemainingIsExact(accepted: seq<int>, o: Options, now: int, k: nat)
    requires Respond(accepted, o, now).success && o.windowMs > 0
    ensures var after := Run(Accept(accepted, o, now), o, Burst(now, k));
      Respond(after, o, now).success <==> k < Respond(accepted, o, now).remaining
    decreases k
  {
    AcceptedLeavesOneLess(accepted, o, now);
    var next := accepted + [now];
    assert Accept(accepted, o, now) == next;
    hide Respond;
    if k > 0 {
      assert Burst(now, k)[0] == now && Burst(now, k)[1..] == Burst(now, k - 1);
      if Respond(next, o, now).success {
        RemainingIsExact(next, o, now, k - 1);
      } else {
        Refused(next, o, now, Burst(now, k));
      }
    }
  }

  lemma {:induction false} Refused(accepted: seq<int>, o: Options, now: int, qs: seq<int>)
    requires !Respond(accepted, o, now).success && forall i :: 0 <= i < |qs| ==> qs[i] == now
    ensures Run(accepted, o, qs) == accepted
  {
    if qs != [] {
      Refused(accepted, o, now, qs[1..]);
    }
  }

  // ------------------------------------------------------------------- the store

  /** The kept timestamps answer every request from `now` on as the whole history does. */
  ghost predicate Covers(kept: seq<int>, accepted: seq<int>, window: int, now: int) {
    forall start :: now - window <= start ==> After(kept, start) == After(accepted, start)
  }

  lemma ForgettingKeepsCover(kept: seq<int>, accepted: seq<int>, window: int, start: int, now: int)
    requires Covers(kept, accepted, window, now) && start <= now - window
    ensures Covers(After(kept, start), accepted, window, now)
  {
    forall later | now - window <= later
      ensures After(After(kept, start), later) == After(accepted, later)
    {
      AfterAfter(kept, start, later);
    }
  }

  lemma AppendKeepsCover(kept: seq<int>, accepted: seq<int>, window: int, now: int)
    requires Covers(kept, accepted, window, now)
    ensures Covers(kept + [now], accepted + [now], window, now)
  {
    forall start | now - window <= start
      ensures After(kept + [now], start) == After(accepted + [now], start)
    {
      AfterAppend(kept, now, start);
      AfterAppend(accepted, now, start);
    }
  }

  function Kept(store: map<string, seq<int>>, key: string): seq<int> {
    if key in store then store[key] else []
  }

  function Cleaned(store: map<string, seq<int>>, now: int): map<string, seq<int>> {
    map key | key in store && After(store[key], now - LONGEST_WINDOW) != [] :: After(store[key], now - LONGEST_WINDOW)
  }

  ghost predicate AllCovered(store: map<string, seq<int>>, accepted: map<string, seq<int>>,
                             windowOf: string -> int, now: int) {
    forall key :: windowOf(key) <= LONGEST_WINDOW && Covers(Kept(store, key), Kept(accepted, key), windowOf(key), now)
  }

  lemma PutKeepsCover(store: map<string, seq<int>>, accepted: map<string, seq<int>>, windowOf: string -> int, now: int,
                      key: string, kept: seq<int>, all: seq<int>)
    requires AllCovered(store, accepted, windowOf, now) && Covers(kept, all, windowOf(key), now)
    ensures AllCovered(store[key := kept], accepted[key := all], windowOf, now)
  {
    hide Covers;
  }

  lemma TimeKeepsCover(store: map<string, seq<int>>, accepted: map<string, seq<int>>, windowOf: string -> int,
                       now: int, later: int)
    requires AllCovered(store, accepted, windowOf, now) && now <= later
    ensures AllCovered(store, accepted, windowOf, later)
  {
  }

  /** What the cleaner does to one key. */
  lemma CleanKeepsCover(store: map<string, seq<int>>, accepted: map<string, seq<int>>, windowOf: string -> int,
                        now: int, key: string)
    requires AllCovered(store, accepted, windowOf, now) && key in store
    ensures var kept := After(store[key], now - LONGEST_WINDOW);
      AllCovered(if kept == [] then store - {key} else store[key := kept], accepted, windowOf, now)
  {
    hide After;
    KeyCovered(store, accepted, windowOf, now, key);
    ForgettingKeepsCover(store[key], Kept(accepted, key), windowOf(key), now - LONGEST_WINDOW, now);
    hide Covers;
  }

  lemma {:induction false} AllAfter(ts: seq<int>, start: int)
    requires forall i :: 0 <= i < |ts| ==> ts[i] > start
    ensures After(ts, start) == ts
  {
    if ts != [] {
      AllAfter(ts[..|ts| - 1], start);
    }
  }

  /** The bound on the windows is needed: for every longer one there are requests whose limit
      the cleaner lifts too early. */
  lemma LongerWindowsAreForgotten(o: Options)
    requires o.windowMs > LONGEST_WINDOW && o.maxRequests > 0
    ensures var h, now := seq(o.maxRequests, _ => 0), LONGEST_WINDOW;
      && Legal(h, o)
      && !Respond(h, o, now).success
      && Respond(After(h, now - LONGEST_WINDOW), o, now).success
  {
    var h := seq(o.maxRequests, _ => 0);
    AllAfter(h, LONGEST_WINDOW - o.windowMs);
    NoneAfter(h, 0);
  }

  lemma KeyCovered(store: map<string, seq<int>>, accepted: map<string, seq<int>>, windowOf: string -> int,
                   now: int, key: string)
    requires AllCovered(store, accepted, windowOf, now)
    ensures Covers(Kept(store, key), Kept(accepted, key), windowOf(key), now)
  {
    hide Covers, Kept;
  }

  lemma CoverNow(kept: seq<int>, history: seq<int>, window: int, now: int)
    requires Covers(kept, history, window, now)
    ensures After(kept, now - window) == After(history, now - window)
  {
    hide After;
  }

  /** What is kept of one key answers now, and goes on doing so with or without this request. */
  lemma KeptAnswers(kept: seq<int>, history: seq<int>, window: int, now: int)
    requires Covers(kept, history, window, now)
    ensures var recent := After(kept, now - window);
      && recent == After(history, now - window)
      && Covers(recent, history, window, now)
      && Covers(recent + [now], history + [now], window, now)
  {
    hide Covers, After;
    CoverNow(kept, history, window, now);
    ForgettingKeepsCover(kept, history, window, now - window, now);
    AppendKeepsCover(After(kept, now - window), history, window, now);
  }

  class Limiter {
    var store: map<string, seq<int>>
    /** The window each key is used with. */
    ghost const windowOf: string -> int
    /** The accepted requests per key since its last reset, and the time of the last call. */
    ghost var accepted: map<string, seq<int>>
    ghost var clock: int

    ghost predicate Valid()
      reads this
    {
      AllCovered(store, accepted, windowOf, clock)
    }

    constructor (ghost windows: string -> int)
      requires forall key :: windows(key) <= LONGEST_WINDOW
      ensures Valid() && windowOf == windows && store == map[] && accepted == map[]
    {
      windowOf, store, accepted, clock := windows, map[], map[], 0;
    }

    /** The answer is the one the whole history of the key gives. */
    method RateLimit(key: string, o: Options, now: int) returns (r: Answer)
      requires Valid() && clock <= now && o.windowMs == windowOf(key)
      modifies this
      ensures Valid() && clock == now
      ensures r == Respond(Kept(old(accepted), key), o, now)
      ensures accepted == old(accepted)[key := Accept(Kept(old(accepted), key), o, now)]
      ensures var recent := After(Kept(old(store), key), now - o.windowMs);
        store == old(store)[key := if r.success then recent + [now] else recent]
    {
      hide Covers, AllCovered, After;
      TimeKeepsCover(store, accepted, windowOf, clock, now);
      clock := now;
      var windowStart := now - o.windowMs;
      ghost var history := Kept(accepted, key);
      var timestamps := Kept(store, key);
      KeyCovered(store, accepted, windowOf, now, key);
      KeptAnswers(timestamps, history, o.windowMs, now);
      timestamps := After(timestamps, windowStart);
      accepted := accepted[key := Accept(history, o, now)];
      if |timestamps| >= o.maxRequests {
        PutKeepsCover(store, old(accepted), windowOf, now, key, timestamps, history);
        store := store[key := timestamps];
        return Answer(false, 0, if timestamps == [] then None else Some(timestamps[0] + o.windowMs));
      }
      timestamps := timestamps + [now];
      PutKeepsCover(store, old(accepted), windowOf, now, key, timestamps, history + [now]);
      store := store[key := timestamps];
      return Answer(true, o.maxRequests - |timestamps|, Some(timestamps[0] + o.windowMs));
    }

    /** The cleaner changes no answer: whatever it forgets no window reaches. */
    method Clean(now: int)
      requires Valid() && clock <= now
      modifies this
      ensures Valid() && clock == now && accepted == old(accepted)
      ensures store == Cleaned(old(store), now)
    {
      hide Covers, AllCovered, After;
      TimeKeepsCover(store, accepted, windowOf, clock, now);
      clock := now;
      var keys := store.Keys;
      while keys != {}
        invariant Valid() && clock == now && accepted == old(accepted)
        invariant keys <= store.Keys <= old(store).Keys
        invariant forall key :: key in keys ==> store[key] == old(store)[key]
        invariant forall key :: key in old(store) && key !in keys ==>
          (key in store <==> key in Cleaned(old(store), now)) && (key in store ==> store[key] == Cleaned(old(store), now)[key])
        decreases |keys|
      {
        var key :| key in keys;
        var timestamps := After(store[key], now - LONGEST_WINDOW);
        CleanKeepsCover(store, accepted, windowOf, now, key);
        store := if |timestamps| == 0 then store - {key} else store[key := timestamps];
        keys := keys - {key};
      }
    }

    method Reset(key: string)
      requires Valid()
      modifies this
      ensures Valid() && clock == old(clock)
      ensures store == old(store) - {key} && accepted == old(accepted) - {key}
    {
      PutKeepsCover(store, accepted, windowOf, clock, key, [], []);
      store := store - {key};
      accepted := accepted - {key};
    }
  }
}
