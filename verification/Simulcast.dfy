/** The switching of simulcast levels by estimated bandwidth, with its growing backoff. Times are
    nanoseconds of a clock that never goes back. */
module Simulcast {
  import opened CallModel
  import opened Wrappers

  /** levelChangeInitialBackoff. */
  const INITIAL_BACKOFF: nat := 10_000_000_000

  // ----------------------------------------------------- one decision to switch

  /** What the receiver's session and the sharer's tracks look like: the level of the track the
      screen sender carries (None without a sharer, a sender or a simulcast track), the source
      rates, whether the track of the other level is there on both sides, and whether the receiver's
      queue has room for the first push and then, whatever others did in between, for the second.
      `tolerated` is the source rate times the tolerance. */
  datatype Scene = Scene(
    carried: Option<Level>,
    sourceRate: Level -> int,
    available: bool,
    room: bool,
    roomThen: bool,
    tolerated: int -> int)

  datatype Push = TakeOut(level: Level) | PutIn(level: Level)

  datatype Decision = Decision(changed: bool, rate: int, level: Level, pushes: seq<Push>)

  /** getSimulcastLevel. */
  function LevelFor(scene: Scene, downRate: int, sourceRate: int): Level {
    if sourceRate > 0 && downRate > scene.tolerated(sourceRate) then High else Low
  }

  function Other(l: Level): Level { if l == High then Low else High }

  function Keep(pushes: seq<Push>): Decision { Decision(false, 0, Low, pushes) }

  /** handleSenderBitrateChange. */
  function Decide(scene: Scene, downRate: int, lossRate: int): Decision {
    if scene.carried.None? then Keep([])
    else
      var curr := scene.carried.value;
      var source := scene.sourceRate(curr);
      if source <= 0 then Keep([])
      else
        var level := LevelFor(scene, downRate, source);
        if level == curr then Keep([])
        else if curr == High && lossRate > scene.tolerated(source) then Keep([])
        else if !scene.available || scene.sourceRate(level) <= 0 then Keep([])
        else if !scene.room then Keep([])
        else if !scene.roomThen then Keep([TakeOut(curr)])
        else Decision(true, scene.sourceRate(level), level, [TakeOut(curr), PutIn(level)])
  }

  /** What the estimates ask for: up when the estimate exceeds the tolerated rate of the track
      carried, down when neither it nor the loss-based estimate does. */
  predicate Asked(scene: Scene, downRate: int, lossRate: int) {
    && scene.carried.Some?
    && scene.sourceRate(High) > 0 && scene.sourceRate(Low) > 0 && scene.available
    && var tolerated := scene.tolerated(scene.sourceRate(scene.carried.value));
       if scene.carried == Some(Low) then downRate > tolerated else downRate <= tolerated && lossRate <= tolerated
  }

  /** A switch is made exactly when it is asked for and the queue takes both halves, and then the
      one track goes out and the other comes in. Without room for the second half the carried track
      is taken out and nothing comes in its place; otherwise nothing is queued. */
  lemma SwitchesWhole(scene: Scene, downRate: int, lossRate: int)
    ensures var d, asked := Decide(scene, downRate, lossRate), Asked(scene, downRate, lossRate);
      && (d.changed <==> asked && scene.room && scene.roomThen)
      && (d.changed ==> d.level == Other(scene.carried.value) && d.rate == scene.sourceRate(d.level))
      && d.pushes == if !asked || !scene.room then []
                     else if !scene.roomThen then [TakeOut(scene.carried.value)]
                     else [TakeOut(scene.carried.value), PutIn(Other(scene.carried.value))]
  {
    if scene.carried.Some? {
      match scene.carried.value
      case High => assert scene.carried == Some(High);
      case Low => assert scene.carried == Some(Low);
    }
  }

  /** The two steps that the model of the call takes for a switch of `id` queue exactly what is
      decided here, whatever happens to the queue between them. */
  lemma CallSwitchesAsDecided(scene: Scene, downRate: int, lossRate: int, c: CallModel.State, id: Id, pub: Pub, copy: nat,
                              later: CallModel.State)
    requires CanSwitch(c, id, pub) && Asked(scene, downRate, lossRate)
    requires scene.room <==> |Member(c, id).queue| < TracksChSize
    requires scene.room ==> CanSwitchIn(later, id) && later.switching == SwitchOutOf(c, id, pub, copy).switching
    requires scene.room ==> (scene.roomThen <==> |Member(later, id).queue| < TracksChSize)
    ensures var s, after, pushes := Member(c, id), SwitchOutOf(c, id, pub, copy), Decide(scene, downRate, lossRate).pushes;
      && Member(after, id).queue == s.queue + (if pushes == [] then [] else [Remove(s.senders[s.screenSender.value])])
      && (pushes != [] ==> s.senders[s.screenSender.value].Some?)
      && after.switching == (if pushes == [] then c.switching else c.switching[id := Track(pub, copy)])
    ensures var pushes := Decide(scene, downRate, lossRate).pushes;
      pushes != [] ==>
        && Member(SwitchInOf(later, id), id).queue
           == Member(later, id).queue + (if |pushes| == 2 then [Add(Track(pub, copy))] else [])
        && SwitchInOf(later, id).switching == later.switching - {id}
  {
    SwitchesWhole(scene, downRate, lossRate);
    hide Decide, Asked;
  }

  // ------------------------------------------------------------------ the handler

  /** A switch made: when, whether the handler's level was low before, and whether both
      estimates had dropped. */
  datatype Switch = Switch(at: int, wasLow: bool, dropped: bool)

  /** The variables the handler captures; `log` lists the switches so far. */
  datatype State = Handler(
    level: Level,
    backoff: nat,
    lastChangeAt: Option<int>,
    lastDelayRate: int,
    lastLossRate: int,
    log: seq<Switch>)

  const INITIAL := Handler(Low, INITIAL_BACKOFF, None, 0, 0, [])

  /** One estimate. */
  datatype Estimate = Estimate(now: int, rate: int, delayRate: int, lossRate: int, scene: Scene)

  /** Neither estimate is at least what it was. */
  predicate Dropped(s: State, e: Estimate) { e.delayRate < s.lastDelayRate && e.lossRate < s.lastLossRate }

  predicate TooSoon(s: State, e: Estimate) {
    && s.lastChangeAt.Some? && e.now - s.lastChangeAt.value < s.backoff
    && (s.level == Low || !Dropped(s, e))
  }

  /** rateChangeHandler. */
  function Handle(s: State, e: Estimate): State {
    var seen := s.(lastDelayRate := e.delayRate, lastLossRate := e.lossRate);
    if TooSoon(s, e) then seen
    else
      var d := Decide(e.scene, e.rate, e.lossRate);
      if !d.changed then seen
      else
        Handler(d.level, s.backoff + s.backoff / 2, Some(e.now), d.rate, d.rate,
              s.log + [Switch(e.now, s.level == Low, Dropped(s, e))])
  }

  /** When the handler switches: the backoff is over, or it serves the high level and both estimates
      have dropped; and the estimates ask for the other level and the queue takes both halves. Then
      the new level is the one not carried, and its rate is what the next estimates are compared
      with; otherwise only the estimates are remembered. */
  lemma SwitchesIff(s: State, e: Estimate)
    ensures var s' := Handle(s, e);
      var due := s.lastChangeAt.None? || e.now - s.lastChangeAt.value >= s.backoff
                 || (s.level == High && e.delayRate < s.lastDelayRate && e.lossRate < s.lastLossRate);
      if due && Asked(e.scene, e.rate, e.lossRate) && e.scene.room && e.scene.roomThen then
        && s'.level == Other(e.scene.carried.value) && s'.lastChangeAt == Some(e.now)
        && s'.lastDelayRate == s'.lastLossRate == e.scene.sourceRate(s'.level)
        && |s'.log| == |s.log| + 1 && s'.log[..|s.log|] == s.log
        && s'.log[|s.log|].at == e.now && s'.log[|s.log|].wasLow == (s.level == Low)
      else
        s' == s.(lastDelayRate := e.delayRate, lastLossRate := e.lossRate)
  {
    SwitchesWhole(e.scene, e.rate, e.lossRate);
    hide Decide, Asked;
  }

  // ------------------------------------------------------------------ the backoff

  /** The backoff after n switches. */
  function Backoff(n: nat): nat {
    if n == 0 then INITIAL_BACKOFF else Backoff(n - 1) + Backoff(n - 1) / 2
  }

  lemma {:induction false} BackoffGrows(m: nat, n: nat)
    requires m <= n
    ensures Backoff(m) <= Backoff(n)
  {
    if m < n {
      BackoffGrows(m, n - 1);
    }
  }

  /** Switch n comes at least its backoff after the one before, unless the handler's level was
      high and both estimates had dropped. */
  predicate Spaced(log: seq<Switch>) {
    forall j :: 0 < j < |log| ==>
      && log[j - 1].at <= log[j].at
      && (log[j].at - log[j - 1].at < Backoff(j) ==> !log[j].wasLow && log[j].dropped)
  }

  predicate Inv(s: State, clock: int) {
    && s.backoff == Backoff(|s.log|)
    && Spaced(s.log)
    && (if s.log == [] then s.lastChangeAt == None
        else s.lastChangeAt == Some(s.log[|s.log| - 1].at) && s.log[|s.log| - 1].at <= clock)
  }

  lemma HandleKeeps(s: State, e: Estimate, clock: int)
    requires Inv(s, clock) && clock <= e.now
    ensures Inv(Handle(s, e), e.now)
  {
    hide Decide;
  }

  predicate Monotone(es: seq<Estimate>) { forall i, j :: 0 <= i <= j < |es| ==> es[i].now <= es[j].now }

  function Run(es: seq<Estimate>): State {
    if es == [] then INITIAL else Handle(Run(es[..|es| - 1]), es[|es| - 1])
  }

  /** Over any run of estimates, whatever the tracks do: the backoff is the initial one grown
      once per switch, and every switch made while the level is low waits for it. */
  lemma {:induction false} SwitchesAreSpaced(es: seq<Estimate>)
    requires Monotone(es)
    ensures Run(es).backoff == Backoff(|Run(es).log|) && Spaced(Run(es).log)
    ensures es != [] ==> Inv(Run(es), es[|es| - 1].now)
  {
    if es != [] {
      var front := es[..|es| - 1];
      SwitchesAreSpaced(front);
      var clock := if front == [] then es[0].now else front[|front| - 1].now;
      hide Handle;
      HandleKeeps(Run(front), es[|es| - 1], clock);
    }
  }

  /** The scene of every estimate shows the level last switched to. */
  predicate Follows(es: seq<Estimate>) {
    forall i :: 0 <= i < |es| ==> es[i].scene.carried.Some? ==> es[i].scene.carried == Some(Run(es[..i]).level)
  }

  /** As long as the receiver carries the level last switched to, the levels alternate, starting
      from the low one. */
  lemma {:induction false} LevelsAlternate(es: seq<Estimate>)
    requires Follows(es)
    ensures var s := Run(es);
      && s.level == (if |s.log| % 2 == 0 then Low else High)
      && forall j :: 0 <= j < |s.log| ==> (s.log[j].wasLow <==> j % 2 == 0)
  {
    if es != [] {
      var front, e := es[..|es| - 1], es[|es| - 1];
      forall i | 0 <= i < |front|
        ensures front[i] == es[i] && front[..i] == es[..i]
      {
      }
      LevelsAlternate(front);
      assert e.scene.carried.Some? ==> e.scene.carried == Some(Run(front).level);
      hide Follows, Handle, Asked;
      SwitchesIff(Run(front), e);
      if Asked(e.scene, e.rate, e.lossRate) {
        AskedCarries(e.scene, e.rate, e.lossRate);
      }
    }
  }

  lemma AskedCarries(scene: Scene, downRate: int, lossRate: int)
    requires Asked(scene, downRate, lossRate)
    ensures scene.carried.Some?
  {
  }

  // -------------------------------------------------------------- how often it flips

  /** The switches away from the low level, the first switch aside. */
  function Exits(log: seq<Switch>): nat {
    if |log| <= 1 then 0 else Exits(log[..|log| - 1]) + if log[|log| - 1].wasLow then 1 else 0
  }

  /** The first k waits together. */
  function TotalBackoff(k: nat): nat { if k == 0 then 0 else TotalBackoff(k - 1) + Backoff(k) }

  /** k exits from the low level take at least the first k waits together, so the switching
      between the levels slows down geometrically. */
  lemma {:induction false} ExitsTakeTime(log: seq<Switch>)
    requires Spaced(log) && log != []
    ensures Exits(log) < |log|
    ensures log[|log| - 1].at - log[0].at >= TotalBackoff(Exits(log))
  {
    if |log| > 1 {
      var front := log[..|log| - 1];
      ExitsTakeTime(front);
      var j := |log| - 1;
      assert log[j - 1].at <= log[j].at;
      if log[j].wasLow {
        BackoffGrows(Exits(log), j);
      }
    }
  }

  lemma FlippingSlowsDown(es: seq<Estimate>)
    requires Monotone(es) && Run(es).log != []
    ensures var log := Run(es).log;
      log[|log| - 1].at - log[0].at >= TotalBackoff(Exits(log))
  {
    SwitchesAreSpaced(es);
    ExitsTakeTime(Run(es).log);
  }

  /** Each wait is half as long again as the one before, to the nanosecond, and the waits so far
      amount to nearly twice the next one. */
  lemma {:induction false} WaitsGrowByHalf(k: nat)
    ensures 2 * Backoff(k + 1) == 3 * Backoff(k) || 2 * Backoff(k + 1) == 3 * Backoff(k) - 1
    ensures TotalBackoff(k) + 3 * Backoff(0) + k >= 2 * Backoff(k + 1)
  {
    if k > 0 {
      WaitsGrowByHalf(k - 1);
    }
  }

  // ------------------------------------------------------------------ the object

  class Estimator {
    var currLevel: Level
    var backoff: nat
    var lastLevelChangeAt: Option<int>
    var lastDelayRate: int
    var lastLossRate: int
    var queue: seq<Push>
    ghost var log: seq<Switch>

    ghost function Now(): State
      reads this
    {
      Handler(currLevel, backoff, lastLevelChangeAt, lastDelayRate, lastLossRate, log)
    }

    constructor ()
      ensures Now() == INITIAL && queue == []
    {
      currLevel, backoff, lastLevelChangeAt := Low, INITIAL_BACKOFF, None;
      lastDelayRate, lastLossRate, queue, log := 0, 0, [], [];
    }

    method RateChanged(e: Estimate) returns (changed: bool)
      modifies this
      ensures Now() == Handle(old(Now()), e)
      ensures queue == old(queue) + if TooSoon(old(Now()), e) then [] else Decide(e.scene, e.rate, e.lossRate).pushes
      ensures changed <==> |log| > |old(log)|
    {
      changed := false;
      var byDelay, byLoss := e.delayRate - lastDelayRate, e.lossRate - lastLossRate;
      var rateDiff := if byDelay > byLoss then byDelay else byLoss;
      ghost var before := Now();
      assert rateDiff < 0 <==> Dropped(before, e);
      lastDelayRate, lastLossRate := e.delayRate, e.lossRate;
      if lastLevelChangeAt.Some? && e.now - lastLevelChangeAt.value < backoff && (currLevel == Low || rateDiff >= 0) {
        return;
      }
      var d := Decide(e.scene, e.rate, e.lossRate);
      queue := queue + d.pushes;
      if d.changed {
        log := log + [Switch(e.now, currLevel == Low, rateDiff < 0)];
        backoff := backoff + backoff / 2;
        lastDelayRate, lastLossRate := d.rate, d.rate;
        lastLevelChangeAt, currLevel := Some(e.now), d.level;
        changed := true;
      }
    }
  }
}
