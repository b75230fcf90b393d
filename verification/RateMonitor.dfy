/** The sliding-window rate monitor. Its buffer grows until it spans twice the sampling size and
    is a ring from then on; here it is proved against the history of all pushes. Times are
    nanoseconds, read from the clock by the caller. */
module RateMonitoring {
  import opened Wrappers

  datatype Sample = Sample(ts: int, size: int)

  function Span(h: seq<Sample>): int
    requires h != []
  {
    h[|h| - 1].ts - h[0].ts
  }

  function Init(h: seq<Sample>): seq<Sample>
    requires h != []
  {
    h[..|h| - 1]
  }

  /** Whether the buffer has stopped growing after the pushes h. */
  predicate Filled(h: seq<Sample>, size: int) {
    h != [] && (Filled(Init(h), size) || Span(h) >= 2 * size)
  }

  /** The number of slots after the pushes h. */
  function Capacity(h: seq<Sample>, size: int): nat {
    if h == [] then 0 else if Filled(Init(h), size) then Capacity(Init(h), size) else |h|
  }

  function Bytes(h: seq<Sample>): int {
    if h == [] then 0 else h[0].size + Bytes(h[1..])
  }

  predicate Monotone(h: seq<Sample>) {
    forall i, j :: 0 <= i <= j < |h| ==> h[i].ts <= h[j].ts
  }

  /** The buffer freezes at the first moment at which it spans twice the sampling size. */
  lemma {:induction false} FreezesAtFirstFill(h: seq<Sample>, size: int)
    ensures var c := Capacity(h, size);
      if Filled(h, size)
      then 0 < c <= |h| && Span(h[..c]) >= 2 * size && forall k :: 0 < k < c ==> Span(h[..k]) < 2 * size
      else c == |h| && forall k :: 0 < k <= |h| ==> Span(h[..k]) < 2 * size
  {
    if h != [] {
      FreezesAtFirstFill(Init(h), size);
      assert h[..|h|] == h;
      forall k | 0 < k < |h|
        ensures Init(h)[..k] == h[..k]
      {
      }
    }
  }

  /** Once frozen, no further pushes change the number of slots. */
  lemma {:induction false} StaysFrozen(h: seq<Sample>, more: seq<Sample>, size: int)
    requires Filled(h, size)
    ensures Filled(h + more, size) && Capacity(h + more, size) == Capacity(h, size)
  {
    if more == [] {
      assert h + more == h;
    } else {
      StaysFrozen(h, Init(more), size);
      assert Init(h + more) == h + Init(more);
    }
  }

  /** p is where the sum starts: the latest of the last n pushes that is at least size old, or
      the oldest of them when none is. */
  predicate IsRateStart(h: seq<Sample>, n: nat, size: int, now: int, p: nat) {
    && |h| - n <= p < |h|
    && (now - h[p].ts >= size || p == |h| - n)
    && forall q :: p < q < |h| ==> now - h[q].ts < size
  }

  lemma RateStartIsUnique(h: seq<Sample>, n: nat, size: int, now: int, p: nat, p': nat)
    requires IsRateStart(h, n, size, now, p) && IsRateStart(h, n, size, now, p')
    ensures p == p'
  {
  }

  /** There is one for every nonempty run of newest pushes. */
  lemma {:induction false} RateStartExists(h: seq<Sample>, n: nat, size: int, now: int)
    requires 0 < n <= |h|
    ensures exists p: nat :: IsRateStart(h, n, size, now, p)
  {
    if n == 1 {
      assert IsRateStart(h, n, size, now, |h| - 1);
    } else {
      RateStartExists(h, n - 1, size, now);
      var p: nat :| IsRateStart(h, n - 1, size, now, p);
      assert IsRateStart(h, n, size, now, if now - h[p].ts >= size then p else p - 1);
    }
  }

  /** On a monotone clock the rate covers less than the sampling size exactly when the oldest
      sample kept is younger than that, and its divisor is zero exactly when every sample kept
      was taken just now. */
  lemma RateCoversWindowIff(h: seq<Sample>, n: nat, size: int, now: int, p: nat)
    requires Monotone(h) && size > 0 && 0 < n <= |h| && h[|h| - 1].ts <= now && IsRateStart(h, n, size, now, p)
    ensures now - h[p].ts >= size <==> now - h[|h| - n].ts >= size
    ensures now - h[p].ts == 0 <==> forall k :: |h| - n <= k < |h| ==> h[k].ts == now
  {
    assert h[|h| - n].ts <= h[p].ts <= h[|h| - 1].ts;
    if now - h[p].ts == 0 {
      assert p == |h| - n;
    }
  }

  /** Slot k modulo the number of slots holds push k, for the last pushes. */
  ghost predicate IsRing(samples: seq<Sample>, h: seq<Sample>) {
    && |samples| <= |h|
    && (h != [] ==> samples != [])
    && forall k :: |h| - |samples| <= k < |h| ==> samples[k % |samples|] == h[k]
  }

  lemma RingOverwrite(samples: seq<Sample>, h: seq<Sample>, s: Sample)
    requires IsRing(samples, h) && samples != []
    ensures IsRing(samples[|h| % |samples| := s], h + [s])
  {
    var n, h' := |samples|, h + [s];
    forall k | |h'| - n <= k < |h'|
      ensures samples[|h| % n := s][k % n] == h'[k]
    {
      if k < |h| {
        DistinctSlots(k, |h|, n);
      }
    }
  }

  lemma RingGrow(h: seq<Sample>)
    ensures IsRing(h, h)
  {
    forall k | 0 <= k < |h|
      ensures h[k % |h|] == h[k]
    {
      ModUnique(k, |h|, 0, k);
    }
  }

  lemma RingEnds(samples: seq<Sample>, h: seq<Sample>)
    requires IsRing(samples, h) && h != []
    ensures samples[(|h| - 1) % |samples|] == h[|h| - 1]
    ensures samples[|h| % |samples|] == h[|h| - |samples|]
  {
    var n := |samples|;
    var q := (|h| - n) / n;
    assert |h| - n == n * q + (|h| - n) % n;
    assert n * (q + 1) == n * q + n;
    ModUnique(|h|, n, q + 1, (|h| - n) % n);
  }

  /** Before the buffer is filled it is the whole history. */
  lemma RingWhole(samples: seq<Sample>, h: seq<Sample>)
    requires IsRing(samples, h) && |samples| == |h|
    ensures samples == h
  {
    forall k | 0 <= k < |h|
      ensures samples[k] == h[k]
    {
      ModUnique(k, |h|, 0, k);
    }
  }

  lemma DistinctSlots(a: nat, b: nat, n: nat)
    requires a < b < a + n
    ensures a % n != b % n
  {
    var q, r := a / n, a % n + (b - a);
    assert b == n * q + r;
    assert n * (q + 1) == n * q + n;
    if r < n {
      ModUnique(b, n, q, r);
    } else {
      ModUnique(b, n, q + 1, r - n);
    }
  }

  lemma ModUnique(a: int, n: nat, q: int, r: nat)
    requires r < n && a == n * q + r
    ensures a % n == r
  {
    var d := q - a / n;
    assert n * d == n * q - n * (a / n);
    if d != 0 {
      AtLeastOne(n, d);
      assert false;
    }
  }

  lemma AtLeastOne(n: nat, d: int)
    requires d != 0
    ensures n * d >= n || n * d + n <= 0
  {
  }

  lemma Unfilled(h: seq<Sample>, size: int)
    requires !Filled(h, size)
    ensures Capacity(h, size) == |h|
  {
    FreezesAtFirstFill(h, size);
  }

  lemma BytesFrom(h: seq<Sample>, p: nat)
    requires p < |h|
    ensures Bytes(h[p..]) == h[p].size + Bytes(h[p + 1..])
  {
    assert h[p..][1..] == h[p + 1..];
  }

  // ------------------------------------------------------------------- the rate

  /** math.Round, which rounds half away from zero. */
  function Rounded(x: real): int { if x >= 0.0 then (x + 0.5).Floor else -(0.5 - x).Floor }

  const NANOSECONDS := 1_000_000_000.0

  /** None stands for the conversion of an infinite or undefined quotient. */
  function BitsPerSecond(bytes: int, duration: int): Option<int> {
    if duration == 0 then None else Some(Rounded(bytes as real / (duration as real / NANOSECONDS) * 8.0))
  }

  /** To the nearest, with halves away from zero. */
  lemma RoundedIsNear(x: real)
    ensures -0.5 <= Rounded(x) as real - x <= 0.5
    ensures x >= 0.0 ==> -0.5 < Rounded(x) as real - x
    ensures Rounded(-x) == -Rounded(x)
  {
  }

  /** Times the duration the rate gives the bits back, up to half a bit for every second. */
  lemma RateGivesBits(bytes: int, duration: int)
    requires duration > 0
    ensures var seconds := duration as real / NANOSECONDS;
      && BitsPerSecond(bytes, duration).Some?
      && -0.5 * seconds <= BitsPerSecond(bytes, duration).value as real * seconds - 8.0 * bytes as real <= 0.5 * seconds
  {
    var seconds := duration as real / NANOSECONDS;
    RoundedIsNear(bytes as real / seconds * 8.0);
    hide Rounded;
    NearQuotient(bytes as real, seconds, Rounded(bytes as real / seconds * 8.0) as real);
  }

  lemma NearQuotient(a: real, b: real, r: real)
    requires b > 0.0 && -0.5 <= r - a / b * 8.0 <= 0.5
    ensures -0.5 * b <= r * b - 8.0 * a <= 0.5 * b
  {
    TimesAgain(a, b);
    NearProduct(a / b, b, r, a);
  }

  lemma TimesAgain(a: real, b: real)
    requires b > 0.0
    ensures a / b * b == a
  {
  }

  lemma NearProduct(q: real, b: real, r: real, a: real)
    requires b > 0.0 && -0.5 <= r - q * 8.0 <= 0.5 && q * b == a
    ensures -0.5 * b <= r * b - 8.0 * a <= 0.5 * b
  {
    NotNegative(r - q * 8.0 + 0.5, b);
    NotNegative(0.5 - (r - q * 8.0), b);
  }

  lemma NotNegative(x: real, b: real)
    requires x >= 0.0 && b > 0.0
    ensures x * b >= 0.0
  {
  }

  class RateMonitor {
    var samples: seq<Sample>
    var samplesPtr: nat
    const samplingSize: int
    var filled: bool
    ghost var pushed: seq<Sample>

    /** The slots hold the last pushes, push k in slot k modulo the number of slots. */
    ghost predicate Valid()
      reads this
    {
      && samplingSize > 0
      && samplesPtr == |pushed|
      && filled == Filled(pushed, samplingSize)
      && |samples| == Capacity(pushed, samplingSize)
      && IsRing(samples, pushed)
    }

    constructor (size: int)
      requires size > 0
      ensures Valid() && pushed == [] && samplingSize == size
    {
      samples, samplesPtr, filled, pushed := [], 0, false, [];
      samplingSize := size;
    }

    /** NewRateMonitor: null stands for its error. */
    static method New(size: int) returns (m: RateMonitor?)
      ensures m == null <==> size <= 0
      ensures m != null ==> fresh(m) && m.Valid() && m.pushed == [] && m.samplingSize == size
    {
      if size <= 0 {
        return null;
      }
      m := new RateMonitor(size);
    }

    /** The age difference between the newest and the oldest sample kept. */
    method GetSamplesDuration() returns (d: int)
      requires Valid()
      ensures d == if pushed == [] then 0 else Span(pushed[|pushed| - |samples|..])
    {
      if |samples| == 0 {
        return 0;
      }
      RingEnds(samples, pushed);
      var lastTS := samples[(samplesPtr - 1) % |samples|].ts;
      var firstTS := samples[samplesPtr % |samples|].ts;
      return lastTS - firstTS;
    }

    method PushSample(now: int, size: int)
      requires Valid()
      modifies this
      ensures Valid() && pushed == old(pushed) + [Sample(now, size)]
      ensures old(filled) ==> filled && |samples| == |old(samples)|
    {
      var s := Sample(now, size);
      ghost var h := pushed;
      pushed := pushed + [s];
      assert Init(pushed) == h;
      if !filled {
        Unfilled(h, samplingSize);
        RingWhole(samples, h);
        samples := samples + [s];
        samplesPtr := samplesPtr + 1;
        RingGrow(pushed);
        RingEnds(samples, pushed);
        if samples[(samplesPtr - 1) % |samples|].ts - samples[samplesPtr % |samples|].ts >= samplingSize * 2 {
          filled := true;
        }
        return;
      }
      RingOverwrite(samples, h, s);
      samples := samples[samplesPtr % |samples| := s];
      samplesPtr := samplesPtr + 1;
    }

    /** -1 and 0 until the buffer is filled; then the rate of the shortest run of newest samples
        that is at least the sampling size old, or of all samples kept when none is. */
    method GetRate(now: int) returns (rate: Option<int>, duration: int)
      requires Valid()
      ensures !filled ==> rate == Some(-1) && duration == 0
      ensures filled ==>
                exists p: nat | p < |pushed| ::
                  && IsRateStart(pushed, |samples|, samplingSize, now, p)
                  && duration == now - pushed[p].ts && rate == BitsPerSecond(Bytes(pushed[p..]), duration)
    {
      if !filled {
        return Some(-1), 0;
      }
      var bytes: int;
      bytes, duration := SumNewest(now);
      rate := BitsPerSecond(bytes, duration);
    }

    /** The loop of GetRate. */
    method SumNewest(now: int) returns (bytes: int, duration: int)
      requires Valid() && filled
      ensures exists p: nat | p < |pushed| ::
                && IsRateStart(pushed, |samples|, samplingSize, now, p)
                && bytes == Bytes(pushed[p..]) && duration == now - pushed[p].ts
    {
      bytes, duration := 0, 0;
      var n := |samples|;
      var i := samplesPtr - 1;
      while i >= samplesPtr - n
        invariant samplesPtr - n - 1 <= i < samplesPtr
        invariant bytes == Bytes(pushed[i + 1..])
        invariant forall q :: i < q < samplesPtr ==> now - pushed[q].ts < samplingSize
        invariant i < samplesPtr - 1 ==> duration == now - pushed[i + 1].ts
      {
        var sample := samples[i % n];
        assert sample == pushed[i];
        BytesFrom(pushed, i);
        duration := now - sample.ts;
        bytes := bytes + sample.size;
        if duration >= samplingSize {
          assert IsRateStart(pushed, n, samplingSize, now, i);
          return;
        }
        i := i - 1;
      }
      assert IsRateStart(pushed, n, samplingSize, now, i + 1);
    }
  }
}
