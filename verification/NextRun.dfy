/** When a schedule fires next: doubling to an index past the asked-for instant, then bisection back to
    the first one. The calendar is an abstract function from occurrence index to instant. */
module NextRun {
  import opened Wrappers

  datatype IntervalUnit = Minute | Hour | Day | Week | UnknownUnit

  const MIN_INTERVAL_VALUE := 1
  const MAX_INTERVAL_VALUE := 10_000
  const MAX_SAFE_INTEGER: int := 0x1f_ffff_ffff_ffff
  /** The furthest instant from the epoch a date can hold, in milliseconds. */
  const MAX_DATE: int := 8_640_000_000_000_000

  function ApproxMs(u: IntervalUnit): int
    requires !u.UnknownUnit?
  {
    match u
    case Minute => 60_000
    case Hour => 3_600_000
    case Day => 86_400_000
    case Week => 604_800_000
  }

  /** An instant in milliseconds, or a date the calendar cannot represent. */
  datatype Instant = Invalid | At(ms: int)

  /** The recurrence and its calendar. `candidate(i)` is the wall-clock occurrence `i` intervals after
      the start. */
  datatype Recurrence = Recurrence(
    intervalValue: int, intervalUnit: IntervalUnit, start: Instant, candidate: nat -> Instant, end: Option<int>)

  /** Occurrence `i` lies past `after`, or past what dates can represent. */
  predicate Past(candidate: nat -> Instant, i: nat, after: int) {
    candidate(i).Invalid? || candidate(i).ms > after
  }

  predicate Representable(i: Instant) {
    i.At? ==> -MAX_DATE <= i.ms <= MAX_DATE
  }

  /** What is assumed of the calendar: occurrence 0 is the start, occurrences do not go back in time,
      once one is out of range so are all later ones, and every date is one the runtime can hold. */
  ghost predicate Calendar(r: Recurrence) {
    && r.candidate(0) == r.start
    && (forall i: nat :: Representable(r.candidate(i)))
    && (forall i: nat, j: nat :: i <= j && r.candidate(j).At? ==>
          r.candidate(i).At? && r.candidate(i).ms <= r.candidate(j).ms)
  }

  predicate ValidEntry(r: Recurrence) {
    MIN_INTERVAL_VALUE <= r.intervalValue <= MAX_INTERVAL_VALUE && !r.intervalUnit.UnknownUnit? && r.start.At?
  }

  function StepMs(r: Recurrence): (s: int)
    requires ValidEntry(r)
    ensures s >= 60_000
  {
    ApproxMs(r.intervalUnit) * r.intervalValue
  }

  function CeilDiv(a: int, b: int): (q: int)
    requires b > 0
    ensures (q - 1) * b < a <= q * b
  {
    -((-a) / b)
  }

  lemma CeilDivNonNegative(a: int, b: int)
    requires a >= 0 && b > 0
    ensures CeilDiv(a, b) >= 0
  {}

  /** A quotient of a bounded difference by at least a minute is bounded. */
  lemma CeilDivBounded(a: int, b: int)
    requires a <= 2 * MAX_DATE && b >= 60_000
    ensures CeilDiv(a, b) <= 2 * MAX_DATE / 60_000 + 1
  {
    var q := CeilDiv(a, b);
    if q >= 1 {
      ProductGrows(q - 1, 60_000, b);
    }
  }

  lemma ProductGrows(n: nat, x: int, y: int)
    requires x <= y
    ensures n * x <= n * y
  {
  }

  /** Where the search starts: two past the estimate, so that a drift of up to two steps is covered. */
  function Estimate(r: Recurrence, after: int): (h: nat)
    requires ValidEntry(r)
    ensures h >= 1
  {
    var n := CeilDiv(after - r.start.ms, StepMs(r)) + 2;
    if n > 1 then n else 1
  }

  /** `n` is the first occurrence past `after`. */
  ghost predicate IsFirstPast(candidate: nat -> Instant, n: nat, after: int) {
    Past(candidate, n, after) && forall i: nat :: i < n ==> !Past(candidate, i, after)
  }

  lemma FirstPastUnique(candidate: nat -> Instant, after: int, m: nat, n: nat)
    requires IsFirstPast(candidate, m, after) && IsFirstPast(candidate, n, after)
    ensures m == n
  {}

  /** Past occurrences are an upper set. */
  lemma PastIsUpward(r: Recurrence, i: nat, j: nat, after: int)
    requires Calendar(r) && i <= j && Past(r.candidate, i, after)
    ensures Past(r.candidate, j, after)
  {}

  /** The whole answer for a valid entry, given the first occurrence past `after`: nothing if that is out
      of range or at or past the end, and its instant otherwise. */
  function Answer(r: Recurrence, n: nat): Option<int> {
    match r.candidate(n)
    case Invalid => None
    case At(ms) => if r.end.Some? && ms >= r.end.value then None else Some(ms)
  }

  /** The last safe integer doubling gets to. */
  function LastSafe(h: nat): (last: nat)
    requires 1 <= h <= MAX_SAFE_INTEGER
    ensures h <= last <= MAX_SAFE_INTEGER < 2 * last
    decreases MAX_SAFE_INTEGER - h
  {
    if 2 * h > MAX_SAFE_INTEGER then h else LastSafe(2 * h)
  }

  /** The one way a valid search gives up: even at the last safe index no occurrence is past `after`. */
  predicate SearchOverflows(r: Recurrence, after: int) {
    && ValidEntry(r) && r.start.ms <= after
    && (Estimate(r, after) <= MAX_SAFE_INTEGER ==> !Past(r.candidate, LastSafe(Estimate(r, after)), after))
  }

  function Pow2(n: nat): (p: nat)
    ensures p >= 1
  {
    if n == 0 then 1 else 2 * Pow2(n - 1)
  }

  lemma Pow2Of53()
    ensures Pow2(53) == MAX_SAFE_INTEGER + 1
  {
    assert Pow2(10) == 1024;
    assert Pow2(20) == 0x10_0000;
    assert Pow2(30) == 0x4000_0000;
    assert Pow2(40) == 0x100_0000_0000;
    assert Pow2(50) == 0x4_0000_0000_0000;
  }

  /** The first loop: double `high` until its occurrence lies past `after`. Returns no index when it
      leaves the safe integers. The attempt cap is never what ends it. */
  method Double(r: Recurrence, after: int, initial: nat) returns (high: Option<nat>, ghost doublings: nat)
    requires Calendar(r) && 1 <= initial <= MAX_SAFE_INTEGER
    ensures doublings <= 53
    ensures high.Some? ==> initial <= high.value <= MAX_SAFE_INTEGER && Past(r.candidate, high.value, after)
    ensures high.None? <==> !Past(r.candidate, LastSafe(initial), after)
  {
    Pow2Of53();
    var h := initial;
    doublings := 0;
    var attempt := 0;
    while attempt < 64
      invariant initial <= h <= MAX_SAFE_INTEGER && Pow2(attempt) <= h && attempt == doublings <= 52
      invariant LastSafe(h) == LastSafe(initial)
      decreases 64 - attempt
    {
      if Past(r.candidate, h, after) {
        PastIsUpward(r, h, LastSafe(h), after);
        return Some(h), doublings;
      }
      doublings := doublings + 1;
      if 2 * h > MAX_SAFE_INTEGER {
        return None, doublings;
      }
      Pow2Monotone(attempt + 1, 53);
      h := 2 * h;
      attempt := attempt + 1;
    }
    assert false;
    return None, doublings;
  }

  lemma {:induction false} Pow2Monotone(a: nat, b: nat)
    ensures a < b ==> Pow2(a) < Pow2(b)
    ensures a > b ==> Pow2(a) > Pow2(b)
  {
    if a < b {
      Pow2Monotone(a, b - 1);
    } else if a > b {
      Pow2Monotone(a - 1, b);
    }
  }

  /** The second loop: close in on the boundary between occurrences up to `after` and those past it. */
  method Bisect(r: Recurrence, after: int, initial: nat) returns (high: nat, ghost halvings: nat)
    requires Calendar(r) && 1 <= initial <= MAX_SAFE_INTEGER
    requires !Past(r.candidate, 0, after) && Past(r.candidate, initial, after)
    ensures halvings <= 53
    ensures high >= 1 && Past(r.candidate, high, after) && !Past(r.candidate, high - 1, after)
  {
    Pow2Of53();
    var low := 0;
    high := initial;
    halvings := 0;
    var attempt := 0;
    while low + 1 < high && attempt < 64
      invariant 0 <= low < high && attempt == halvings <= 53
      invariant !Past(r.candidate, low, after) && Past(r.candidate, high, after)
      invariant high - low <= Pow2(53 - attempt)
      decreases 64 - attempt
    {
      assert attempt < 53;
      var mid := (low + high) / 2;
      if Past(r.candidate, mid, after) {
        high := mid;
      } else {
        low := mid;
      }
      attempt := attempt + 1;
      halvings := halvings + 1;
    }
    if attempt == 64 {
      assert false;
    }
  }

  /** Between representable dates even one-minute steps stay far inside the safe integers. */
  lemma EstimateIsSafe(r: Recurrence, after: int)
    requires ValidEntry(r) && Representable(r.start) && -MAX_DATE <= after <= MAX_DATE
    ensures Estimate(r, after) <= MAX_SAFE_INTEGER
  {
    CeilDivBounded(after - r.start.ms, StepMs(r));
  }

  /** What a search answers. A valid entry gets the first occurrence strictly after `after`, unless that
      is out of range or the schedule has ended, or the index leaves the safe integers first. */
  ghost predicate NextRunIs(r: Recurrence, after: Instant, next: Option<int>) {
    if !ValidEntry(r) || after.Invalid? || SearchOverflows(r, after.ms) then next.None?
    else exists n: nat :: IsFirstPast(r.candidate, n, after.ms) && next == Answer(r, n)
  }

  method ComputeNextRun(r: Recurrence, after: Instant) returns (next: Option<int>)
    requires Calendar(r) && Representable(after)
    ensures NextRunIs(r, after, next)
  {
    if r.intervalValue < MIN_INTERVAL_VALUE || r.intervalValue > MAX_INTERVAL_VALUE || r.intervalUnit.UnknownUnit? {
      return None;
    }
    if r.start.Invalid? || after.Invalid? {
      return None;
    }
    var index := 0;
    if r.start.ms <= after.ms {
      assert Representable(r.candidate(0));
      EstimateIsSafe(r, after.ms);
      var high, _ := Double(r, after.ms, Estimate(r, after.ms));
      if high.None? {
        return None;
      }
      ghost var halvings;
      index, halvings := Bisect(r, after.ms, high.value);
    }
    forall i: nat | i < index
      ensures !Past(r.candidate, i, after.ms)
    {
      if Past(r.candidate, i, after.ms) {
        PastIsUpward(r, i, index - 1, after.ms);
      }
    }
    assert IsFirstPast(r.candidate, index, after.ms);
    return Answer(r, index);
  }

  // ---------------------------------------------------------------------------------------------
  // What the answer means.

  /** If no occurrence lags `start + i * step` by two steps or more, the estimate already lies past
      `after`: there is no doubling to do and the search cannot overflow. */
  lemma SmallDriftNeverOverflows(r: Recurrence, after: int)
    requires Calendar(r) && ValidEntry(r) && r.start.ms <= after && -MAX_DATE <= after <= MAX_DATE
    requires forall i: nat :: r.candidate(i).At? ==> r.candidate(i).ms > r.start.ms + i * StepMs(r) - 2 * StepMs(r)
    ensures Past(r.candidate, Estimate(r, after), after) && !SearchOverflows(r, after)
  {
    assert Representable(r.candidate(0));
    EstimateIsSafe(r, after);
    var h := Estimate(r, after);
    var q := CeilDiv(after - r.start.ms, StepMs(r));
    CeilDivNonNegative(after - r.start.ms, StepMs(r));
    assert h == q + 2;
    assert h * StepMs(r) == q * StepMs(r) + 2 * StepMs(r);
    PastIsUpward(r, h, LastSafe(h), after);
  }

  /** The answer is an occurrence strictly after `after` and before the end, and no occurrence lies
      between. */
  lemma AnswerIsLeast(r: Recurrence, after: Instant, next: int)
    requires Calendar(r) && NextRunIs(r, after, Some(next))
    ensures after.At? && next > after.ms && (r.end.Some? ==> next < r.end.value)
    ensures exists n: nat :: r.candidate(n) == At(next)
    ensures forall i: nat :: r.candidate(i).At? && r.candidate(i).ms > after.ms ==> r.candidate(i).ms >= next
  {
    var n: nat :| IsFirstPast(r.candidate, n, after.ms) && Some(next) == Answer(r, n);
    forall i: nat | r.candidate(i).At? && r.candidate(i).ms > after.ms
      ensures r.candidate(i).ms >= next
    {
      assert Past(r.candidate, i, after.ms);
    }
  }

  /** Nothing is answered exactly when no occurrence is left: each that is after `after` is at or past
      the end. */
  lemma NothingIffNoneLeft(r: Recurrence, after: Instant, next: Option<int>)
    requires Calendar(r) && ValidEntry(r) && after.At? && !SearchOverflows(r, after.ms) && NextRunIs(r, after, next)
    ensures next.None? <==>
            forall i: nat :: r.candidate(i).At? && r.candidate(i).ms > after.ms ==>
              r.end.Some? && r.candidate(i).ms >= r.end.value
  {
    var n: nat :| IsFirstPast(r.candidate, n, after.ms) && next == Answer(r, n);
    if next.None? {
      forall i: nat | r.candidate(i).At? && r.candidate(i).ms > after.ms
        ensures r.end.Some? && r.candidate(i).ms >= r.end.value
      {
        assert Past(r.candidate, i, after.ms);
      }
    }
  }

  lemma AnswerIsUnique(r: Recurrence, after: Instant, a: Option<int>, b: Option<int>)
    requires NextRunIs(r, after, a) && NextRunIs(r, after, b)
    ensures a == b
  {
    if ValidEntry(r) && after.At? && !SearchOverflows(r, after.ms) {
      var m: nat :| IsFirstPast(r.candidate, m, after.ms) && a == Answer(r, m);
      var n: nat :| IsFirstPast(r.candidate, n, after.ms) && b == Answer(r, n);
      FirstPastUnique(r.candidate, after.ms, m, n);
    }
  }

  /** Order of answers, no answer being the last. */
  predicate NotAfter(x: Option<int>, y: Option<int>) {
    y.None? || (x.Some? && x.value <= y.value)
  }

  lemma SearchedIsMonotone(r: Recurrence, a: Instant, b: Instant, x: Option<int>, y: Option<int>)
    requires Calendar(r) && a.At? && b.At? && a.ms <= b.ms && !SearchOverflows(r, a.ms)
    requires NextRunIs(r, a, x) && NextRunIs(r, b, y)
    ensures NotAfter(x, y)
  {
    if y.Some? {
      AnswerIsLeast(r, b, y.value);
      var n: nat :| r.candidate(n) == At(y.value);
      NothingIffNoneLeft(r, a, x);
      if x.Some? {
        AnswerIsLeast(r, a, x.value);
      }
    }
  }

  /** A search from `b` has something to find: it does not give up, and an occurrence is left before the end. */
  ghost predicate SomethingLater(r: Recurrence, b: Instant) {
    && ValidEntry(r) && b.At? && !SearchOverflows(r, b.ms)
    && exists i: nat :: r.candidate(i).At? && r.candidate(i).ms > b.ms && (r.end.Some? ==> r.candidate(i).ms < r.end.value)
  }

  lemma FindsIffSomethingLater(r: Recurrence, b: Instant, y: Option<int>)
    requires Calendar(r) && NextRunIs(r, b, y)
    ensures y.Some? <==> SomethingLater(r, b)
  {
    if ValidEntry(r) && b.At? && !SearchOverflows(r, b.ms) {
      NothingIffNoneLeft(r, b, y);
    }
  }

  /** Asking later never answers earlier, and once nothing is left nothing is found, except exactly when the
      earlier search gave up for want of safe integers and the later one has something to find. */
  lemma MonotoneInAfter(r: Recurrence, a: Instant, b: Instant, x: Option<int>, y: Option<int>)
    requires Calendar(r) && a.At? && b.At? && a.ms <= b.ms
    requires NextRunIs(r, a, x) && NextRunIs(r, b, y)
    ensures NotAfter(x, y) <==> !(SearchOverflows(r, a.ms) && SomethingLater(r, b))
  {
    FindsIffSomethingLater(r, b, y);
    if !SearchOverflows(r, a.ms) {
      SearchedIsMonotone(r, a, b, x, y);
    } else {
      FindsIffSomethingLater(r, a, x);
    }
  }

  /** So it is without any exception where occurrences keep within two steps of their nominal place. */
  lemma MonotoneUnderSmallDrift(r: Recurrence, a: Instant, b: Instant, x: Option<int>, y: Option<int>)
    requires Calendar(r) && a.At? && b.At? && a.ms <= b.ms && Representable(a)
    requires ValidEntry(r) ==>
               forall i: nat :: r.candidate(i).At? ==> r.candidate(i).ms > r.start.ms + i * StepMs(r) - 2 * StepMs(r)
    requires NextRunIs(r, a, x) && NextRunIs(r, b, y)
    ensures NotAfter(x, y)
  {
    if ValidEntry(r) && r.start.ms <= a.ms {
      SmallDriftNeverOverflows(r, a.ms);
    }
    MonotoneInAfter(r, a, b, x, y);
  }

  /** The exception is needed: on a calendar that stands still for 2^52 occurrences the search from its
      first instant gives up, and the one a minute later finds the occurrence that comes then. */
  lemma GivingUpBreaksMonotone()
    ensures var r := StandingStill();
            && Calendar(r) && SearchOverflows(r, 0)
            && NextRunIs(r, At(0), None) && NextRunIs(r, At(60_000), Some(120_000))
  {
    StandingStillIsCalendar();
    StandingStillSearches();
    FirstOfMany(StandingStill(), LastSafe(2) + 1, 60_000);
  }

  lemma StandingStillIsCalendar()
    ensures Calendar(StandingStill())
  {
  }

  lemma StandingStillSearches()
    ensures var r := StandingStill();
            && SearchOverflows(r, 0) && !SearchOverflows(r, 60_000)
            && Past(r.candidate, LastSafe(2) + 1, 60_000) && !Past(r.candidate, LastSafe(2), 60_000)
  {
    LastSafeGrows();
    StandingStillEstimates();
  }

  lemma StandingStillEstimates()
    ensures ValidEntry(StandingStill()) && Estimate(StandingStill(), 0) == 2 && Estimate(StandingStill(), 60_000) == 3
  {
    assert CeilDiv(0, 60_000) == 0 && CeilDiv(60_000, 60_000) == 1;
  }

  lemma LastSafeGrows()
    ensures LastSafe(2) < LastSafe(3)
  {
    LastSafeOf(2);
    LastSafeOf(3);
  }

  lemma FirstOfMany(r: Recurrence, n: nat, after: int)
    requires Calendar(r) && n > 0 && Past(r.candidate, n, after) && !Past(r.candidate, n - 1, after)
    ensures IsFirstPast(r.candidate, n, after)
  {
    forall j: nat | j < n
      ensures !Past(r.candidate, j, after)
    {
      if Past(r.candidate, j, after) {
        PastIsUpward(r, j, n - 1, after);
      }
    }
  }

  function StandingStill(): Recurrence {
    Recurrence(1, Minute, At(0), (i: nat) => if i <= LastSafe(2) then At(0) else At(120_000), None)
  }

  lemma LastSafeOf(c: nat)
    requires 2 <= c <= 3
    ensures LastSafe(c) == c * Pow2(51)
  {
    Pow2Of53();
    assert Pow2(53) == 2 * Pow2(52) == 4 * Pow2(51);
    LastSafeFrom(c, 0);
  }

  lemma {:induction false} LastSafeFrom(c: nat, j: nat)
    requires 2 <= c <= 3 && j <= 51 && 4 * Pow2(51) == MAX_SAFE_INTEGER + 1
    ensures 1 <= c * Pow2(j) <= MAX_SAFE_INTEGER && LastSafe(c * Pow2(j)) == c * Pow2(51)
    decreases 51 - j
  {
    if j < 51 {
      LastSafeFrom(c, j + 1);
      assert c * Pow2(j + 1) == 2 * (c * Pow2(j));
      Pow2Monotone(j + 1, 51);
      assert c * Pow2(j + 1) <= c * Pow2(51);
    }
  }

  /** The instant the `k`-th run time was computed from. */
  function Prior(after: Instant, times: seq<int>, k: nat): Instant
    requires k <= |times|
  {
    if k == 0 then after else At(times[k - 1])
  }

  /** The scheduler's loop: each run time is the answer after the one before. */
  ghost predicate Fires(r: Recurrence, after: Instant, times: seq<int>) {
    forall k: nat :: k < |times| ==> NextRunIs(r, Prior(after, times, k), Some(times[k]))
  }

  /** `b` is the occurrence next after `a`: nothing falls strictly between. */
  ghost predicate Adjacent(r: Recurrence, a: Instant, b: int) {
    && a.At? && a.ms < b
    && forall i: nat :: r.candidate(i).At? && a.ms < r.candidate(i).ms <= b ==> r.candidate(i).ms == b
  }

  ghost predicate AllAdjacent(r: Recurrence, after: Instant, times: seq<int>) {
    forall k: nat :: k < |times| ==> Adjacent(r, Prior(after, times, k), times[k])
  }

  lemma {:induction false} NoGaps(r: Recurrence, after: Instant, times: seq<int>, m: nat, i: nat)
    requires AllAdjacent(r, after, times) && m < |times| && after.At?
    requires r.candidate(i).At? && after.ms < r.candidate(i).ms <= times[m]
    ensures r.candidate(i).ms in times
  {
    assert Adjacent(r, Prior(after, times, m), times[m]);
    if r.candidate(i).ms <= Prior(after, times, m).ms {
      NoGaps(r, after, times, m - 1, i);
    }
  }

  lemma FiresAreAdjacent(r: Recurrence, after: Instant, times: seq<int>)
    requires Calendar(r) && Fires(r, after, times)
    ensures AllAdjacent(r, after, times)
  {
    forall k: nat | k < |times|
      ensures Adjacent(r, Prior(after, times, k), times[k])
    {
      AnswerIsLeast(r, Prior(after, times, k), times[k]);
    }
  }

  lemma AdjacentIncrease(r: Recurrence, after: Instant, times: seq<int>)
    requires after.At? && AllAdjacent(r, after, times)
    ensures forall k: nat :: k < |times| ==> Prior(after, times, k).ms < times[k]
  {
    forall k: nat | k < |times|
      ensures Prior(after, times, k).ms < times[k]
    {
      assert Adjacent(r, Prior(after, times, k), times[k]);
    }
  }

  lemma NoGapsAtAll(r: Recurrence, after: Instant, times: seq<int>)
    requires AllAdjacent(r, after, times) && times != [] && after.At?
    ensures forall i: nat :: r.candidate(i).At? && after.ms < r.candidate(i).ms <= times[|times| - 1] ==>
              r.candidate(i).ms in times
  {
    forall i: nat | r.candidate(i).At? && after.ms < r.candidate(i).ms <= times[|times| - 1]
      ensures r.candidate(i).ms in times
    {
      NoGaps(r, after, times, |times| - 1, i);
    }
  }

  /** Iterating the search from its own answers visits the occurrences in increasing order, so each
      instant once, and skips none up to the last one reached. */
  lemma IterationSkipsNothing(r: Recurrence, after: Instant, times: seq<int>)
    requires Calendar(r) && after.At? && Fires(r, after, times) && times != []
    ensures forall k: nat :: k < |times| ==> Prior(after, times, k).ms < times[k]
    ensures forall i: nat :: r.candidate(i).At? && after.ms < r.candidate(i).ms <= times[|times| - 1] ==>
              r.candidate(i).ms in times
  {
    FiresAreAdjacent(r, after, times);
    AdjacentIncrease(r, after, times);
    NoGapsAtAll(r, after, times);
  }

  /** No search from `from` up to `to` gives up. */
  ghost predicate NeverGivesUp(r: Recurrence, from: int, to: int) {
    forall t: int :: from <= t < to ==> !SearchOverflows(r, t)
  }

  /** While an occurrence before the end is ahead, the search answers one no later. */
  lemma AnswersBefore(r: Recurrence, after: int, i: nat) returns (x: int)
    requires Calendar(r) && ValidEntry(r) && !SearchOverflows(r, after)
    requires r.candidate(i).At? && after < r.candidate(i).ms && (r.end.Some? ==> r.candidate(i).ms < r.end.value)
    ensures NextRunIs(r, At(after), Some(x)) && after < x <= r.candidate(i).ms
  {
    var n := FirstPast(r, after, i);
    assert r.candidate(n).At? && r.candidate(n).ms <= r.candidate(i).ms;
    x := r.candidate(n).ms;
    assert Answer(r, n) == Some(x);
  }

  /** And it reaches every one: from any instant, iterating the search comes to each later occurrence that is
      before the end. */
  lemma {:induction false} IterationReaches(r: Recurrence, after: int, i: nat) returns (times: seq<int>)
    requires Calendar(r) && ValidEntry(r) && r.candidate(i).At? && NeverGivesUp(r, after, r.candidate(i).ms)
    requires after < r.candidate(i).ms && (r.end.Some? ==> r.candidate(i).ms < r.end.value)
    ensures times != [] && times[|times| - 1] == r.candidate(i).ms && Fires(r, At(after), times)
    decreases r.candidate(i).ms - after
  {
    var x := AnswersBefore(r, after, i);
    if x == r.candidate(i).ms {
      times := [];
    } else {
      times := IterationReaches(r, x, i);
    }
    FiresCons(r, At(after), x, times);
    times := [x] + times;
  }

  lemma FiresCons(r: Recurrence, after: Instant, x: int, later: seq<int>)
    requires NextRunIs(r, after, Some(x)) && Fires(r, At(x), later)
    ensures Fires(r, after, [x] + later)
  {
    var times := [x] + later;
    forall k: nat | k < |times|
      ensures NextRunIs(r, Prior(after, times, k), Some(times[k]))
    {
      if k > 0 {
        assert NextRunIs(r, Prior(At(x), later, k - 1), Some(later[k - 1]));
        assert Prior(after, times, k) == Prior(At(x), later, k - 1);
      }
    }
  }

  /** The first occurrence past `after`, at or before one that is. */
  lemma {:induction false} FirstPast(r: Recurrence, after: int, i: nat) returns (n: nat)
    requires Calendar(r) && Past(r.candidate, i, after)
    ensures n <= i && IsFirstPast(r.candidate, n, after)
  {
    if i == 0 || !Past(r.candidate, i - 1, after) {
      n := i;
      if i > 0 {
        FirstOfMany(r, i, after);
      }
    } else {
      n := FirstPast(r, after, i - 1);
    }
  }
}
