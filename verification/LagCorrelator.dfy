/**
 The time-offset estimate between two pose streams. Each candidate lag correlates the target's
 speed with the reference's speed resampled at that lag's own times. A single sweep
 resamples one grid, and each lag reads its own stretch of it; both are shown to give exactly
 what resampling per lag and looking each time up on its own would.

 Angles between rotations and the square root enter as functions; `root` by what it promises.
 */
module LagCorrelator {
  import opened Common

  // ---------------------------------------------------------------------------
  // Speed profiles
  // ---------------------------------------------------------------------------

  /** `angularVelocity` is a bit pattern to compare and `reported` its norm. */
  datatype PoseSample = PoseSample(time: real, rotation: int, angularVelocity: int, reported: real)

  datatype SpeedSample = SpeedSample(time: real, value: real, valid: bool)

  predicate ValidStream(stream: seq<PoseSample>) {
    forall i :: 0 < i < |stream| ==> stream[i].time > stream[i - 1].time
  }

  const Still: real := 0.000001

  function Reports(stream: seq<PoseSample>): nat {
    if |stream| < 2 then 0
    else Reports(stream[..|stream| - 1]) + if stream[|stream| - 1].reported <= Still then 0 else 1
  }

  function Repeats(stream: seq<PoseSample>): nat {
    if |stream| < 2 then 0
    else
      var last := stream[|stream| - 1];
      Repeats(stream[..|stream| - 1])
      + if last.reported > Still && last.angularVelocity == stream[|stream| - 2].angularVelocity then 1 else 0
  }

  /** More than one report in twenty repeats the one before: a transport is holding values. */
  predicate HeldReports(stream: seq<PoseSample>) {
    Repeats(stream) * 20 > Reports(stream)
  }

  function ProfileAt(stream: seq<PoseSample>, held: bool, maxGap: real, angle: (int, int) -> real, i: nat): SpeedSample
    requires i < |stream|
    decreases i
  {
    var s := stream[i];
    if !held && s.reported > Still then SpeedSample(s.time, s.reported, true)
    else if i + 1 == |stream| then
      if i == 0 then SpeedSample(s.time, 0.0, false)
      else ProfileAt(stream, held, maxGap, angle, i - 1).(time := s.time)
    else
      var dt := stream[i + 1].time - s.time;
      if dt <= Still || dt > maxGap then SpeedSample(s.time, 0.0, false)
      else SpeedSample(s.time + 0.5 * dt, angle(s.rotation, stream[i + 1].rotation) / dt, true)
  }

  function Profile(stream: seq<PoseSample>, maxGap: real, angle: (int, int) -> real): (p: seq<SpeedSample>)
    ensures |p| == |stream|
  {
    seq(|stream|, i requires 0 <= i < |stream| => ProfileAt(stream, HeldReports(stream), maxGap, angle, i))
  }

  method BuildSpeedProfile(stream: seq<PoseSample>, maxGap: real, angle: (int, int) -> real)
    returns (speed: seq<SpeedSample>)
    ensures speed == Profile(stream, maxGap, angle)
  {
    var reportedCount, repeatedCount := 0, 0;
    if |stream| > 0 {
      for i := 1 to |stream|
        invariant reportedCount == Reports(stream[..i]) && repeatedCount == Repeats(stream[..i])
      {
        assert stream[..i + 1][..i] == stream[..i];
        if stream[i].reported <= Still {
          continue;
        }
        reportedCount := reportedCount + 1;
        if stream[i].angularVelocity == stream[i - 1].angularVelocity {
          repeatedCount := repeatedCount + 1;
        }
      }
    }
    assert stream[..|stream|] == stream;
    var held := repeatedCount * 20 > reportedCount;
    speed := [];
    for i := 0 to |stream|
      invariant |speed| == i && forall j :: 0 <= j < i ==> speed[j] == ProfileAt(stream, held, maxGap, angle, j)
    {
      var sample := SpeedSample(stream[i].time, 0.0, false);
      if !held && stream[i].reported > Still {
        sample := SpeedSample(stream[i].time, stream[i].reported, true);
      } else if i + 1 >= |stream| {
        // The last pose has no interval of its own and takes the speed of the one before.
        if i > 0 {
          sample := SpeedSample(stream[i].time, speed[i - 1].value, speed[i - 1].valid);
        }
      } else {
        var dt := stream[i + 1].time - stream[i].time;
        if !(dt <= Still || dt > maxGap) {
          sample := SpeedSample(stream[i].time + 0.5 * dt, angle(stream[i].rotation, stream[i + 1].rotation) / dt, true);
        }
      }
      speed := speed + [sample];
    }
  }

  lemma ProfileTimeAt(stream: seq<PoseSample>, held: bool, maxGap: real, angle: (int, int) -> real, i: nat)
    requires ValidStream(stream) && i < |stream|
    ensures var t := ProfileAt(stream, held, maxGap, angle, i).time;
            && stream[i].time <= t && (i + 1 < |stream| ==> t < stream[i + 1].time)
            && (i + 1 == |stream| ==> t == stream[i].time)
  {
    if i + 1 < |stream| {
      assert stream[i + 1].time > stream[i].time;
      hide ValidStream;
    }
  }

  /** Midpoint stamps never overtake: a profile's times rise like its stream's, and end with it. */
  lemma ProfileTimesRise(stream: seq<PoseSample>, maxGap: real, angle: (int, int) -> real, i: nat)
    requires ValidStream(stream) && i < |stream|
    ensures var p := Profile(stream, maxGap, angle);
            && stream[i].time <= p[i].time && (i > 0 ==> p[i - 1].time < p[i].time)
            && (i + 1 == |stream| ==> p[i].time == stream[i].time)
  {
    var held := HeldReports(stream);
    ProfileTimeAt(stream, held, maxGap, angle, i);
    if i > 0 {
      ProfileTimeAt(stream, held, maxGap, angle, i - 1);
    }
    hide ProfileAt, ValidStream;
  }

  // ---------------------------------------------------------------------------
  // Resampling
  // ---------------------------------------------------------------------------

  datatype Reading = Reading(value: real, valid: bool)

  /** The first index whose successor is not before `t`; the last one if there is none. */
  function Cell(speed: seq<SpeedSample>, t: real, from: nat): (j: nat)
    requires from <= |speed|
    ensures from <= j <= |speed|
    ensures forall i :: from < i <= j && i < |speed| ==> speed[i].time < t
    ensures !(j + 1 < |speed| && speed[j + 1].time < t)
    decreases |speed| - from
  {
    if from + 1 < |speed| && speed[from + 1].time < t then Cell(speed, t, from + 1) else from
  }

  function Distance(a: real, b: real): real { if a < b then b - a else a - b }

  const SameTime: real := 0.000000001

  /** The speed at one time, found on its own. */
  function Lookup(speed: seq<SpeedSample>, t: real, maxGap: real): Reading {
    var j := Cell(speed, t, 0);
    if j + 1 >= |speed| then Reading(0.0, false)
    else
      var a, b := speed[j], speed[j + 1];
      if Distance(t, a.time) <= SameTime then Reading(a.value, a.valid)
      else if Distance(t, b.time) <= SameTime then Reading(b.value, b.valid)
      else if !a.valid || !b.valid || t < a.time || b.time - a.time > maxGap then Reading(0.0, false)
      else Reading(a.value + (t - a.time) / (b.time - a.time) * (b.value - a.value), true)
  }

  /** Later times are found in later cells, so a cursor never has to go back. */
  lemma {:induction false} CellsRise(speed: seq<SpeedSample>, t: real, later: real, from: nat)
    requires t <= later && from <= |speed|
    ensures Cell(speed, t, from) <= Cell(speed, later, from)
    ensures Cell(speed, later, Cell(speed, t, from)) == Cell(speed, later, from)
    decreases |speed| - from
  {
    if from + 1 < |speed| && speed[from + 1].time < t {
      CellsRise(speed, t, later, from + 1);
    }
  }

  function SlotTime(t0: real, dt: real, i: int): real { t0 + dt * i as real }

  function Resampled(speed: seq<SpeedSample>, t0: real, dt: real, count: nat, maxGap: real): (r: seq<Reading>)
    ensures |r| == count
    ensures forall i :: 0 <= i < count ==> r[i] == Lookup(speed, SlotTime(t0, dt, i), maxGap)
  {
    seq(count, i requires 0 <= i < count => Lookup(speed, SlotTime(t0, dt, i), maxGap))
  }

  method ResampleSpeed(speed: seq<SpeedSample>, t0: real, dt: real, count: nat, maxGap: real)
    returns (values: seq<real>, valid: seq<bool>)
    requires dt > 0.0
    ensures |values| == |valid| == count
    ensures forall i :: 0 <= i < count ==>
              Reading(values[i], valid[i]) == Resampled(speed, t0, dt, count, maxGap)[i]
  {
    hide Cell, Lookup, SlotTime;
    values, valid := seq(count, _ => 0.0), seq(count, _ => false);
    var j: nat := 0;
    for i := 0 to count
      invariant |values| == |valid| == count && j <= |speed|
      invariant forall k :: 0 <= k < i ==> Reading(values[k], valid[k]) == Lookup(speed, SlotTime(t0, dt, k), maxGap)
      invariant forall k :: i <= k < count ==> values[k] == 0.0 && !valid[k]
      invariant Cell(speed, SlotTime(t0, dt, i), j) == Cell(speed, SlotTime(t0, dt, i), 0)
    {
      var t := SlotTime(t0, dt, i);
      j := Advance(speed, t, j);
      if j + 1 >= |speed| {
        forall k | i <= k < count ensures Lookup(speed, SlotTime(t0, dt, k), maxGap) == Reading(0.0, false) {
          SlotTimesOrdered(t0, dt, i, k);
          PastTheEnd(speed, t, SlotTime(t0, dt, k), maxGap);
        }
        break;
      }
      var value, ok := ReadCell(speed, j, t, maxGap);
      values, valid := values[i := value], valid[i := ok];
      SlotTimesOrdered(t0, dt, i, i + 1);
      CellsRise(speed, t, SlotTime(t0, dt, i + 1), 0);
    }
  }

  lemma SlotTimesOrdered(t0: real, dt: real, i: int, k: int)
    requires dt > 0.0 && i <= k
    ensures SlotTime(t0, dt, i) <= SlotTime(t0, dt, k)
  {
    var steps := (k - i) as real;
    assert dt * k as real == dt * i as real + dt * steps;
    assert dt * steps >= 0.0;
  }

  lemma PastTheEnd(speed: seq<SpeedSample>, t: real, later: real, maxGap: real)
    requires t <= later && Cell(speed, t, 0) + 1 >= |speed|
    ensures Lookup(speed, later, maxGap) == Reading(0.0, false)
  {
    CellsRise(speed, t, later, 0);
  }

  method ReadCell(speed: seq<SpeedSample>, j: nat, t: real, maxGap: real) returns (value: real, ok: bool)
    requires j == Cell(speed, t, 0) && j + 1 < |speed|
    ensures Reading(value, ok) == Lookup(speed, t, maxGap)
  {
    var a, b := speed[j], speed[j + 1];
    if Distance(t, a.time) <= SameTime {
      return a.value, a.valid;
    }
    if Distance(t, b.time) <= SameTime {
      return b.value, b.valid;
    }
    if !a.valid || !b.valid || t < a.time || b.time - a.time > maxGap {
      return 0.0, false;
    }
    var f := (t - a.time) / (b.time - a.time);
    return a.value + f * (b.value - a.value), true;
  }

  /** The cursor moves on to the cell of `t`. */
  method Advance(speed: seq<SpeedSample>, t: real, from: nat) returns (j: nat)
    requires from <= |speed|
    ensures j == Cell(speed, t, from) && j <= |speed|
    ensures !(j + 1 < |speed| && speed[j + 1].time < t)
  {
    j := from;
    while j + 1 < |speed| && speed[j + 1].time < t
      invariant from <= j <= |speed| && Cell(speed, t, from) == Cell(speed, t, j)
    {
      j := j + 1;
    }
  }

  /** Inside a cell of a rising profile the reading is the straight line between its ends. */
  lemma LookupInterpolates(speed: seq<SpeedSample>, j: nat, t: real, maxGap: real)
    requires forall i :: 0 < i < |speed| ==> speed[i - 1].time < speed[i].time
    requires j + 1 < |speed| && speed[j].time + SameTime < t < speed[j + 1].time - SameTime
    requires speed[j].valid && speed[j + 1].valid && speed[j + 1].time - speed[j].time <= maxGap
    ensures var r := Lookup(speed, t, maxGap);
            && r.valid
            && (r.value - speed[j].value) * (speed[j + 1].time - speed[j].time) ==
               (t - speed[j].time) * (speed[j + 1].value - speed[j].value)
  {
    CellIs(speed, t, j, 0);
    var a, b := speed[j], speed[j + 1];
    var f := (t - a.time) / (b.time - a.time);
    assert f * (b.time - a.time) == t - a.time;
    assert Lookup(speed, t, maxGap) == Reading(a.value + f * (b.value - a.value), true);
    LineThrough(f, b.time - a.time, t - a.time, b.value - a.value);
  }

  lemma LineThrough(f: real, width: real, part: real, rise: real)
    requires f * width == part
    ensures (f * rise) * width == part * rise
  {
  }

  lemma {:induction false} CellIs(speed: seq<SpeedSample>, t: real, j: nat, from: nat)
    requires forall i :: 0 < i < |speed| ==> speed[i - 1].time < speed[i].time
    requires from <= j && j + 1 < |speed| && speed[j].time < t <= speed[j + 1].time
    ensures Cell(speed, t, from) == j
    decreases j - from
  {
    if from < j {
      TimesBelow(speed, from + 1, j);
      CellIs(speed, t, j, from + 1);
    }
  }

  lemma {:induction false} TimesBelow(speed: seq<SpeedSample>, i: nat, j: nat)
    requires forall k :: 0 < k < |speed| ==> speed[k - 1].time < speed[k].time
    requires i <= j < |speed|
    ensures speed[i].time <= speed[j].time
    decreases j - i
  {
    if i < j {
      TimesBelow(speed, i, j - 1);
    }
  }

  // ---------------------------------------------------------------------------
  // Correlating
  // ---------------------------------------------------------------------------

  predicate Both(a: seq<Reading>, b: seq<Reading>, i: nat)
    requires i < |a| == |b|
  {
    a[i].valid && b[i].valid
  }

  function Support(a: seq<Reading>, b: seq<Reading>, n: nat): nat
    requires n <= |a| == |b|
  {
    if n == 0 then 0 else Support(a, b, n - 1) + if Both(a, b, n - 1) then 1 else 0
  }

  function Total(a: seq<Reading>, b: seq<Reading>, n: nat): real
    requires n <= |a| == |b|
  {
    if n == 0 then 0.0 else Total(a, b, n - 1) + if Both(a, b, n - 1) then a[n - 1].value else 0.0
  }

  function Product(a: real, b: real): real { a * b }

  function Products(a: seq<Reading>, b: seq<Reading>, aMean: real, bMean: real, n: nat): real
    requires n <= |a| == |b|
  {
    if n == 0 then 0.0
    else
      Products(a, b, aMean, bMean, n - 1)
      + if Both(a, b, n - 1) then Product(a[n - 1].value - aMean, b[n - 1].value - bMean) else 0.0
  }

  function Squares(a: seq<Reading>, b: seq<Reading>, aMean: real, n: nat): real
    requires n <= |a| == |b|
  {
    if n == 0 then 0.0
    else
      Squares(a, b, aMean, n - 1)
      + if Both(a, b, n - 1) then Product(a[n - 1].value - aMean, a[n - 1].value - aMean) else 0.0
  }

  const MinSupport: nat := 64
  const NoScore: real := -2.0
  const Flat: real := 0.00000001

  ghost predicate SquareRoot(root: real -> real) {
    forall x: real :: x > 0.0 ==> root(x) > 0.0 && root(x) * root(x) == x
  }

  function Scored(root: real -> real, dot: real, refNorm: real, targetNorm: real): real
    requires SquareRoot(root)
  {
    if refNorm > Flat && targetNorm > Flat then
      assert refNorm * targetNorm > 0.0;
      dot / root(refNorm * targetNorm)
    else NoScore
  }

  /** The correlation of two readings where both are valid. */
  function Correlation(root: real -> real, target: seq<Reading>, ref: seq<Reading>): real
    requires |target| == |ref| && SquareRoot(root)
  {
    var n := |target|;
    var support := Support(target, ref, n);
    if support < MinSupport then NoScore
    else
      var refMean := Total(ref, target, n) / support as real;
      var targetMean := Total(target, ref, n) / support as real;
      Scored(root, Products(ref, target, refMean, targetMean, n), Squares(ref, target, refMean, n),
             Squares(target, ref, targetMean, n))
  }

  /** The target against the grid from `base` on; nothing is copied. */
  method CorrelateAt(root: real -> real, target: seq<Reading>, grid: seq<Reading>, base: nat) returns (score: real)
    requires base + |target| <= |grid| && SquareRoot(root)
    ensures score == Correlation(root, target, grid[base..base + |target|])
  {
    hide Scored, Support, Total, Products, Squares;
    var refSum, targetSum, support := SumsAt(target, grid, base);
    if support < MinSupport {
      return NoScore;
    }
    var refMean, targetMean := refSum / support as real, targetSum / support as real;
    var dot, refNorm, targetNorm := ProductsAt(target, grid, base, refMean, targetMean);
    score := Scored(root, dot, refNorm, targetNorm);
  }

  method SumsAt(target: seq<Reading>, grid: seq<Reading>, base: nat) returns (refSum: real, targetSum: real, support: nat)
    requires base + |target| <= |grid|
    ensures var window := grid[base..base + |target|];
            && refSum == Total(window, target, |target|) && targetSum == Total(target, window, |target|)
            && support == Support(target, window, |target|)
  {
    ghost var window := grid[base..base + |target|];
    refSum, targetSum, support := 0.0, 0.0, 0;
    for i := 0 to |target|
      invariant refSum == Total(window, target, i) && targetSum == Total(target, window, i)
      invariant support == Support(target, window, i)
    {
      if !target[i].valid || !grid[base + i].valid {
        continue;
      }
      refSum := refSum + grid[base + i].value;
      targetSum := targetSum + target[i].value;
      support := support + 1;
    }
  }

  method ProductsAt(target: seq<Reading>, grid: seq<Reading>, base: nat, refMean: real, targetMean: real)
    returns (dot: real, refNorm: real, targetNorm: real)
    requires base + |target| <= |grid|
    ensures var window := grid[base..base + |target|];
            && dot == Products(window, target, refMean, targetMean, |target|)
            && refNorm == Squares(window, target, refMean, |target|)
            && targetNorm == Squares(target, window, targetMean, |target|)
  {
    hide Product;
    ghost var window := grid[base..base + |target|];
    dot, refNorm, targetNorm := 0.0, 0.0, 0.0;
    for i := 0 to |target|
      invariant dot == Products(window, target, refMean, targetMean, i)
      invariant refNorm == Squares(window, target, refMean, i) && targetNorm == Squares(target, window, targetMean, i)
    {
      if !target[i].valid || !grid[base + i].valid {
        continue;
      }
      var r, t := grid[base + i].value - refMean, target[i].value - targetMean;
      dot := dot + Product(r, t);
      refNorm := refNorm + Product(r, r);
      targetNorm := targetNorm + Product(t, t);
    }
  }

  // ---------------------------------------------------------------------------
  // The shared grid
  // ---------------------------------------------------------------------------

  datatype Config = Config(range: real, step: real, maxGap: real, minCorrelation: real)

  predicate ValidConfig(c: Config) {
    c.range >= 0.0 && c.step > 0.0 && c.maxGap > 0.0 && -1.0 <= c.minCorrelation <= 1.0
  }

  function Later(a: real, b: real): real { if a < b then b else a }
  function Earlier(a: real, b: real): real { if b < a then b else a }

  /** Where the search looks: `count` slots from `start`, on a grid with `steps` lags on both sides. */
  datatype Search = Search(start: real, end: real, subdiv: nat, dt: real, count: nat, steps: nat)
  {
    function Base(k: int): int { (steps - k) * subdiv }
    function GridStart(step: real): real { start - steps as real * step }
    function GridCount(): nat { count + 2 * steps * subdiv }
    function WindowStart(step: real, k: int): real { start - k as real * step }
  }

  predicate SearchOf(c: Config, s: Search) {
    && s.subdiv == (if c.step >= 0.002 then 2 else 1)
    && s.dt > 0.0 && s.dt * s.subdiv as real == c.step
    && s.count as real * s.dt <= s.end - s.start
    && s.steps as real * c.step <= c.range
  }

  /** Slot i of lag k's window is slot Base(k) + i of the grid, in bounds and at the same time. */
  lemma GridServesEveryLag(c: Config, s: Search, k: int, i: nat)
    requires SearchOf(c, s) && k + s.steps >= 0 && k <= s.steps && i < s.count
    ensures 0 <= s.Base(k) && s.Base(k) + i < s.GridCount()
    ensures SlotTime(s.GridStart(c.step), s.dt, s.Base(k) + i) == SlotTime(s.WindowStart(c.step, k), s.dt, i)
  {
    var before := s.steps - k;
    assert before * s.subdiv <= 2 * s.steps * s.subdiv;
    assert (before * s.subdiv) as real == before as real * s.subdiv as real;
    var base := s.Base(k);
    assert (base + i) as real == base as real + i as real;
    SplitSlots(s.dt, base as real, i as real);
    WholeSteps(s.dt, before as real, s.subdiv as real, c.step);
    assert before as real * c.step == s.steps as real * c.step - k as real * c.step by {
      Distribute(s.steps as real, k as real, c.step);
    }
  }

  lemma Distribute(a: real, b: real, c: real)
    ensures (a - b) * c == a * c - b * c
  {
  }

  lemma SplitSlots(dt: real, a: real, b: real)
    ensures dt * (a + b) == dt * a + dt * b
  {
  }

  lemma WholeSteps(dt: real, before: real, subdiv: real, step: real)
    requires dt * subdiv == step
    ensures dt * (before * subdiv) == before * step
  {
  }

  /** One resampling of the grid holds every lag's own resampling as a slice. */
  lemma SliceIsWindow(speed: seq<SpeedSample>, c: Config, s: Search, k: int)
    requires SearchOf(c, s) && k + s.steps >= 0 && k <= s.steps
    ensures 0 <= s.Base(k) && s.Base(k) + s.count <= s.GridCount()
    ensures Resampled(speed, s.GridStart(c.step), s.dt, s.GridCount(), c.maxGap)[s.Base(k)..s.Base(k) + s.count] ==
            Resampled(speed, s.WindowStart(c.step, k), s.dt, s.count, c.maxGap)
  {
    var grid := Resampled(speed, s.GridStart(c.step), s.dt, s.GridCount(), c.maxGap);
    var window := Resampled(speed, s.WindowStart(c.step, k), s.dt, s.count, c.maxGap);
    BaseInBounds(s, k);
    forall i | 0 <= i < s.count ensures grid[s.Base(k) + i] == window[i] {
      GridServesEveryLag(c, s, k, i);
    }
    hide SlotTime, Lookup;
  }

  lemma BaseInBounds(s: Search, k: int)
    requires k + s.steps >= 0 && k <= s.steps
    ensures 0 <= s.Base(k) && s.Base(k) + s.count <= s.GridCount()
  {
    var before := s.steps - k;
    assert 0 <= before * s.subdiv <= 2 * s.steps * s.subdiv;
  }

  /** The whole grid lies inside both streams, a slot short of the end. */
  lemma GridInsideStreams(c: Config, s: Search, front: real, back: real, g: nat)
    requires ValidConfig(c) && SearchOf(c, s) && s.start == front + c.range && s.end == back - c.range
    requires g < s.GridCount()
    ensures front <= SlotTime(s.GridStart(c.step), s.dt, g) <= back - s.dt
  {
    var last := s.GridCount() - 1;
    SlotTimesOrdered(s.GridStart(c.step), s.dt, 0, g);
    SlotTimesOrdered(s.GridStart(c.step), s.dt, g, last);
    assert last as real == s.count as real + (2 * s.steps * s.subdiv) as real - 1.0;
    assert (2 * s.steps * s.subdiv) as real == (2.0 * s.steps as real) * s.subdiv as real;
    LastSlot(s.dt, s.count as real, 2.0 * s.steps as real, s.subdiv as real, c.step);
    assert (2.0 * s.steps as real) * c.step == 2.0 * (s.steps as real * c.step);
  }

  lemma LastSlot(dt: real, count: real, lags: real, subdiv: real, step: real)
    requires dt * subdiv == step
    ensures dt * (count + lags * subdiv - 1.0) == count * dt + lags * step - dt
  {
    WholeSteps(dt, lags, subdiv, step);
    SplitSlots(dt, count, lags * subdiv - 1.0);
    SplitSlots(dt, lags * subdiv, -1.0);
  }

  // ---------------------------------------------------------------------------
  // The search
  // ---------------------------------------------------------------------------

  const MaxRawSamples: nat := 100000
  const MaxResampledPoints: real := 1000000.0
  const MaxLagSteps: nat := 2000
  const MaxCorrelationWork: nat := 100000000

  predicate GridFits(points: nat, steps: nat) {
    points as real <= MaxResampledPoints && steps <= MaxLagSteps && points * (2 * steps + 1) <= MaxCorrelationWork
  }

  /** The score of lag k by its own resampling of both streams. */
  function NaiveScore(root: real -> real, ref: seq<SpeedSample>, target: seq<SpeedSample>, c: Config, s: Search, k: int): real
    requires SquareRoot(root)
  {
    Correlation(root, Resampled(target, s.start, s.dt, s.count, c.maxGap),
                Resampled(ref, s.WindowStart(c.step, k), s.dt, s.count, c.maxGap))
  }

  function Lag(steps: nat, index: nat): int { index - steps }

  /** `best` is the first index with the highest score. */
  predicate FirstBest(scores: seq<real>, best: nat) {
    && best < |scores|
    && (forall i :: 0 <= i < |scores| ==> scores[i] <= scores[best])
    && (forall i :: 0 <= i < best ==> scores[i] < scores[best])
  }

  method ScoreLags(root: real -> real, ref: seq<SpeedSample>, target: seq<SpeedSample>, c: Config, s: Search)
    returns (scores: seq<real>, bestScore: real, bestOffset: real)
    requires SquareRoot(root) && ValidConfig(c) && SearchOf(c, s)
    ensures |scores| == 2 * s.steps + 1
    ensures forall i :: 0 <= i < |scores| ==> scores[i] == NaiveScore(root, ref, target, c, s, Lag(s.steps, i))
    ensures bestScore >= NoScore && forall i :: 0 <= i < |scores| ==> scores[i] <= bestScore
    ensures bestScore > NoScore ==>
              exists best: nat :: FirstBest(scores, best) && scores[best] == bestScore
                             && bestOffset == Lag(s.steps, best) as real * c.step
  {
    hide SlotTime, Correlation;
    var values, valid := ResampleSpeed(target, s.start, s.dt, s.count, c.maxGap);
    var targets := seq(s.count, i requires 0 <= i < s.count => Reading(values[i], valid[i]));
    assert targets == Resampled(target, s.start, s.dt, s.count, c.maxGap);
    values, valid := ResampleSpeed(ref, s.GridStart(c.step), s.dt, s.GridCount(), c.maxGap);
    var grid := seq(s.GridCount(), i requires 0 <= i < s.GridCount() => Reading(values[i], valid[i]));
    assert grid == Resampled(ref, s.GridStart(c.step), s.dt, s.GridCount(), c.maxGap);

    scores, bestScore, bestOffset := [], NoScore, 0.0;
    ghost var best: nat := 0;
    for index := 0 to 2 * s.steps + 1
      invariant |scores| == index && bestScore >= NoScore
      invariant forall i :: 0 <= i < index ==> scores[i] == NaiveScore(root, ref, target, c, s, Lag(s.steps, i))
      invariant forall i :: 0 <= i < index ==> scores[i] <= bestScore
      invariant bestScore > NoScore ==>
                  && best < index && scores[best] == bestScore && bestOffset == Lag(s.steps, best) as real * c.step
                  && forall i :: 0 <= i < best ==> scores[i] < bestScore
    {
      var k := index - s.steps;
      BaseInBounds(s, k);
      SliceIsWindow(ref, c, s, k);
      var score := CorrelateAt(root, targets, grid, s.Base(k));
      scores := scores + [score];
      if score > bestScore {
        bestScore, bestOffset := score, k as real * c.step;
        best := index;
      }
    }
    if bestScore > NoScore {
      assert FirstBest(scores, best);
    }
  }

  method MaxElement(scores: seq<real>) returns (best: nat)
    requires scores != []
    ensures FirstBest(scores, best)
  {
    best := 0;
    for i := 1 to |scores|
      invariant best < i && (forall j :: 0 <= j < i ==> scores[j] <= scores[best])
      invariant forall j :: 0 <= j < best ==> scores[j] < scores[best]
    {
      if scores[best] < scores[i] {
        best := i;
      }
    }
  }

  /** The parabola through a peak and its neighbours has its top within half a step of the peak. */
  lemma PeakShiftIsSmall(y0: real, y1: real, y2: real)
    requires y0 <= y1 && y2 <= y1 && y0 - 2.0 * y1 + y2 != 0.0
    ensures -0.5 <= 0.5 * (y0 - y2) / (y0 - 2.0 * y1 + y2) <= 0.5
  {
    var denom := y0 - 2.0 * y1 + y2;
    var shift := 0.5 * (y0 - y2) / denom;
    assert shift * denom == 0.5 * (y0 - y2);
    assert denom < 0.0 && denom <= y0 - y2 <= -denom;
    QuotientBound(shift, denom, 0.5 * (y0 - y2));
  }

  lemma QuotientBound(shift: real, denom: real, top: real)
    requires denom < 0.0 && shift * denom == top && 0.5 * denom <= top <= -0.5 * denom
    ensures -0.5 <= shift <= 0.5
  {
    assert (shift - 0.5) * denom == top - 0.5 * denom;
    assert (shift + 0.5) * denom == top + 0.5 * denom;
    if shift > 0.5 {
      NegativeProduct(shift - 0.5, denom);
    }
    if shift < -0.5 {
      NegativeProduct(-(shift + 0.5), denom);
    }
  }

  lemma NegativeProduct(a: real, b: real)
    requires a > 0.0 && b < 0.0
    ensures a * b < 0.0
  {
  }

  const TinyCurvature: real := 0.000000000001

  predicate HasNeighbours(scores: seq<real>, best: nat) {
    0 < best && best + 1 < |scores|
    && Distance(scores[best - 1] - 2.0 * scores[best] + scores[best + 1], 0.0) > TinyCurvature
  }

  /** How far the top of the parabola through a peak and its neighbours is from the peak, in steps. */
  function PeakShift(scores: seq<real>, best: nat): real {
    if HasNeighbours(scores, best) then
      0.5 * (scores[best - 1] - scores[best + 1]) / (scores[best - 1] - 2.0 * scores[best] + scores[best + 1])
    else 0.0
  }

  /** The parabola through (-1, y0), (0, y1) and (1, y2). */
  function Parabola(y0: real, y1: real, y2: real, x: real): real {
    y1 + 0.5 * (y2 - y0) * x + 0.5 * (y0 - 2.0 * y1 + y2) * x * x
  }

  /** The parabola through the three scores is nowhere higher than at the shift. */
  lemma PeakShiftIsTheTop(scores: seq<real>, best: nat, x: real)
    requires FirstBest(scores, best) && HasNeighbours(scores, best)
    ensures var y0, y1, y2 := scores[best - 1], scores[best], scores[best + 1];
            && Parabola(y0, y1, y2, -1.0) == y0 && Parabola(y0, y1, y2, 0.0) == y1 && Parabola(y0, y1, y2, 1.0) == y2
            && Parabola(y0, y1, y2, x) <= Parabola(y0, y1, y2, PeakShift(scores, best))
  {
    var y0, y1, y2 := scores[best - 1], scores[best], scores[best + 1];
    var denom := y0 - 2.0 * y1 + y2;
    assert PeakShift(scores, best) * denom == 0.5 * (y0 - y2);
    TopOf(y1, 0.5 * (y2 - y0), 0.5 * denom, PeakShift(scores, best), x);
  }

  lemma TopOf(y: real, slope: real, bend: real, top: real, x: real)
    requires bend <= 0.0 && top * (2.0 * bend) == -slope
    ensures y + slope * x + bend * x * x <= y + slope * top + bend * top * top
  {
    var apart := top - x;
    assert slope == -2.0 * (top * bend);
    assert slope * apart == -2.0 * (top * bend) * apart;
    assert bend * top * top - bend * x * x == bend * apart * (top + x) by { SquaresApart(bend, top, x); }
    assert slope * apart + bend * apart * (top + x) == -(bend * (apart * apart)) by { Collects(slope, bend, top, x, apart); }
    NotPositive(bend, apart);
  }

  lemma SquaresApart(bend: real, top: real, x: real)
    ensures bend * top * top - bend * x * x == bend * (top - x) * (top + x)
  {
  }

  lemma Collects(slope: real, bend: real, top: real, x: real, apart: real)
    requires slope == -2.0 * (top * bend) && apart == top - x
    ensures slope * apart + bend * apart * (top + x) == -(bend * (apart * apart))
  {
    var m := bend * apart;
    assert slope * apart == -2.0 * (top * m);
    assert bend * apart * (top + x) == m * top + m * x;
    assert bend * (apart * apart) == m * apart == m * top - m * x;
  }

  lemma NotPositive(bend: real, apart: real)
    requires bend <= 0.0
    ensures bend * (apart * apart) <= 0.0
  {
    var square := apart * apart;
    assert square >= 0.0;
  }

  /** Parabolic refinement around a discrete peak that has both neighbours. */
  method Refine(scores: seq<real>, best: nat, step: real, lag: real) returns (offset: real)
    requires FirstBest(scores, best) && step > 0.0
    ensures offset == lag + PeakShift(scores, best) * step
    ensures lag - 0.5 * step <= offset <= lag + 0.5 * step
    ensures best == 0 || best + 1 == |scores| ==> offset == lag
  {
    offset := lag;
    if best > 0 && best + 1 < |scores| {
      var y0, y1, y2 := scores[best - 1], scores[best], scores[best + 1];
      var denom := y0 - 2.0 * y1 + y2;
      if Distance(denom, 0.0) > TinyCurvature {
        PeakShiftIsSmall(y0, y1, y2);
        var shift := 0.5 * (y0 - y2) / denom;
        if Distance(shift, 0.0) <= 1.0 {
          ShiftedWithin(shift, step);
          offset := lag + shift * step;
        }
      }
    }
  }

  lemma ShiftedWithin(shift: real, step: real)
    requires -0.5 <= shift <= 0.5 && step > 0.0
    ensures -0.5 * step <= shift * step <= 0.5 * step
  {
  }

  function CeilingOfHundredth(step: real): int
    requires step > 0.0
  {
    -((-(0.01 / step)).Floor)
  }

  function Exclusion(step: real): int
    requires step > 0.0
  {
    if CeilingOfHundredth(step) > 1 then CeilingOfHundredth(step) else 1
  }

  predicate Apart(i: int, best: int, exclusion: int) { i < best - exclusion || i > best + exclusion }

  /** The highest score that is not next to the best one. */
  function Runner(scores: seq<real>, best: nat, exclusion: int, n: nat): (second: real)
    requires n <= |scores|
    ensures second >= NoScore && forall i :: 0 <= i < n && Apart(i, best, exclusion) ==> scores[i] <= second
    ensures second > NoScore ==> exists i :: 0 <= i < n && Apart(i, best, exclusion) && scores[i] == second
  {
    if n == 0 then NoScore
    else
      var before := Runner(scores, best, exclusion, n - 1);
      if Apart(n - 1, best, exclusion) then Later(before, scores[n - 1]) else before
  }

  function Margin(scores: seq<real>, best: nat, step: real): real
    requires best < |scores| && step > 0.0
  {
    var second := Runner(scores, best, Exclusion(step), |scores|);
    if second > -1.0 then scores[best] - second else scores[best]
  }

  /** The margin is the whole lead over the best lag that is not next to the best, and that lag exists. */
  lemma MarginIsTheLead(scores: seq<real>, best: nat, step: real)
    requires FirstBest(scores, best) && step > 0.0
    ensures var rivals := set i | 0 <= i < |scores| && Apart(i, best, Exclusion(step)) && scores[i] > -1.0;
            if rivals == {} then Margin(scores, best, step) == scores[best]
            else
              && (forall i :: i in rivals ==> scores[i] + Margin(scores, best, step) <= scores[best])
              && exists i :: i in rivals && scores[i] + Margin(scores, best, step) == scores[best]
  {
    hide Exclusion, FirstBest;
    var exclusion := Exclusion(step);
    var second := Runner(scores, best, exclusion, |scores|);
    var rivals := set i | 0 <= i < |scores| && Apart(i, best, exclusion) && scores[i] > -1.0;
    if second > -1.0 {
      var i :| 0 <= i < |scores| && Apart(i, best, exclusion) && scores[i] == second;
      assert i in rivals;
    }
  }

  method PeakMargin(scores: seq<real>, best: nat, step: real) returns (margin: real)
    requires best < |scores| && step > 0.0
    ensures margin == Margin(scores, best, step)
  {
    var exclusion := Exclusion(step);
    var second := NoScore;
    for i := 0 to |scores|
      invariant second == Runner(scores, best, exclusion, i)
    {
      if !Apart(i, best, exclusion) {
        continue;
      }
      second := Later(second, scores[i]);
    }
    margin := if second > -1.0 then scores[best] - second else scores[best];
  }

  const LeastMargin: real := 0.000001

  /** The naive score of every lag. */
  function Scores(root: real -> real, ref: seq<PoseSample>, target: seq<PoseSample>, c: Config, angle: (int, int) -> real)
    : (scores: seq<real>)
    requires SquareRoot(root) && Searchable(ref, target, c)
    ensures var s := Plan(ref, target, c);
            && |scores| == 2 * s.steps + 1
            && forall i :: 0 <= i < |scores| ==>
                 scores[i] == NaiveScore(root, Profile(ref, c.maxGap, angle), Profile(target, c.maxGap, angle), c, s, Lag(s.steps, i))
  {
    var s := Plan(ref, target, c);
    var refSpeed, targetSpeed := Profile(ref, c.maxGap, angle), Profile(target, c.maxGap, angle);
    seq(2 * s.steps + 1, i requires 0 <= i => NaiveScore(root, refSpeed, targetSpeed, c, s, Lag(s.steps, i)))
  }

  /** A lag is accepted if it is the first best, correlates well enough, and stands out. */
  ghost predicate Stands(scores: seq<real>, best: nat, c: Config)
    requires c.step > 0.0
  {
    FirstBest(scores, best) && scores[best] >= c.minCorrelation && Margin(scores, best, c.step) > LeastMargin
  }

  /**
   The estimate is made exactly when the streams can be searched and some lag stands out; it is then
   the refined peak of the naive per-lag scores, and never outside the range searched.
   */
  method EstimateTimeOffset(ref: seq<PoseSample>, target: seq<PoseSample>, c: Config, angle: (int, int) -> real,
                            root: real -> real)
    returns (ok: bool, offset: real, score: real, margin: real, ghost best: nat)
    requires SquareRoot(root)
    ensures ok <==> Searchable(ref, target, c) && exists i: nat :: Stands(Scores(root, ref, target, c, angle), i, c)
    ensures !ok ==> offset == 0.0
    ensures ok ==>
              && var s, scores := Plan(ref, target, c), Scores(root, ref, target, c, angle);
                 && Stands(scores, best, c) && score == scores[best] && margin == Margin(scores, best, c.step)
                 && offset == Lag(s.steps, best) as real * c.step + PeakShift(scores, best) * c.step
                 && Distance(offset, 0.0) <= c.range
  {
    hide NaiveScore, Profile, SearchOf, Exclusion, SquareRoot, Apart, Lag, FirstBest, Margin, PeakShift, Searchable, Plan;
    ok, offset, score, margin, best := false, 0.0, 0.0, 0.0, 0;
    var planned, search := PlanSearch(ref, target, c);
    if !planned {
      return;
    }
    var refSpeed := BuildSpeedProfile(ref, c.maxGap, angle);
    var targetSpeed := BuildSpeedProfile(target, c.maxGap, angle);
    var all, bestScore, bestOffset := ScoreLags(root, refSpeed, targetSpeed, c, search);
    assert all == Scores(root, ref, target, c, angle);
    // Told even if it refuses the estimate.
    score := Later(bestScore, -1.0);
    if bestScore < c.minCorrelation {
      NoneBetter(all, bestScore);
      return;
    }
    var bestIndex := MaxElement(all);
    best := bestIndex;
    SameBest(all, bestIndex, bestScore);
    assert bestIndex < |all| by { BestIsIndex(all, bestIndex); }
    margin := PeakMargin(all, bestIndex, c.step);
    if margin <= LeastMargin {
      return;
    }
    offset := Refine(all, bestIndex, c.step, bestOffset);
    LagInRange(c, search, bestIndex, bestOffset, offset);
    assert Stands(all, bestIndex, c);
    ok, score := true, bestScore;
  }

  lemma NoneBetter(scores: seq<real>, bestScore: real)
    requires forall i :: 0 <= i < |scores| ==> scores[i] <= bestScore
    ensures forall best: nat :: FirstBest(scores, best) ==> scores[best] <= bestScore
  {
  }

  lemma BestIsIndex(scores: seq<real>, best: nat)
    requires FirstBest(scores, best)
    ensures best < |scores|
  {
  }

  function SearchStart(ref: seq<PoseSample>, target: seq<PoseSample>, c: Config): real
    requires |ref| > 0 && |target| > 0
  {
    Later(ref[0].time, target[0].time) + c.range
  }

  function SearchEnd(ref: seq<PoseSample>, target: seq<PoseSample>, c: Config): real
    requires |ref| > 0 && |target| > 0
  {
    Earlier(ref[|ref| - 1].time, target[|target| - 1].time) - c.range
  }

  /** Streams long enough, in order, and overlapping by half a second besides the range searched. */
  predicate LongEnough(ref: seq<PoseSample>, target: seq<PoseSample>, c: Config) {
    && ValidConfig(c) && 8 <= |ref| <= MaxRawSamples && 8 <= |target| <= MaxRawSamples
    && ValidStream(ref) && ValidStream(target) && SearchEnd(ref, target, c) - SearchStart(ref, target, c) >= 0.5
  }

  function Plan(ref: seq<PoseSample>, target: seq<PoseSample>, c: Config): Search
    requires LongEnough(ref, target, c)
  {
    var start, end := SearchStart(ref, target, c), SearchEnd(ref, target, c);
    var subdiv := if c.step >= 0.002 then 2 else 1;
    RatiosArePositive(end - start, c.range, c.step, subdiv as real);
    Search(start, end, subdiv, c.step / subdiv as real, ((end - start) / (c.step / subdiv as real)).Floor,
           (c.range / c.step).Floor)
  }

  /** And whose search stays within its budget. */
  predicate Searchable(ref: seq<PoseSample>, target: seq<PoseSample>, c: Config) {
    && LongEnough(ref, target, c)
    && var s := Plan(ref, target, c);
       s.dt > 0.0 && (s.end - s.start) / s.dt <= MaxResampledPoints && GridFits(s.GridCount(), s.steps)
  }

  method PlanSearch(ref: seq<PoseSample>, target: seq<PoseSample>, c: Config) returns (ok: bool, s: Search)
    ensures ok <==> Searchable(ref, target, c)
    ensures ok ==> s == Plan(ref, target, c) && ValidConfig(c) && SearchOf(c, s) && ValidStream(ref) && ValidStream(target)
  {
    hide ValidStream, SearchOf;
    ok, s := false, Search(0.0, 0.0, 1, 1.0, 0, 0);
    if |ref| < 8 || |target| < 8 || !ValidConfig(c) {
      return;
    }
    if |ref| > MaxRawSamples || |target| > MaxRawSamples || !ValidStream(ref) || !ValidStream(target) {
      return;
    }
    var start := Later(ref[0].time, target[0].time) + c.range;
    var end := Earlier(ref[|ref| - 1].time, target[|target| - 1].time) - c.range;
    if end - start < 0.5 {
      return;
    }
    var subdiv := if c.step >= 0.002 then 2 else 1;
    var dt := c.step / subdiv as real;
    RatiosArePositive(end - start, c.range, c.step, subdiv as real);
    var rawCount := (end - start) / dt;
    if rawCount > MaxResampledPoints {
      return;
    }
    var planned := Search(start, end, subdiv, dt, rawCount.Floor, (c.range / c.step).Floor);
    if !GridFits(planned.GridCount(), planned.steps) {
      return;
    }
    SearchIsSound(c, planned, rawCount);
    ok, s := true, planned;
  }

  lemma RatiosArePositive(length: real, range: real, step: real, subdiv: real)
    requires length >= 0.5 && range >= 0.0 && step > 0.0 && subdiv >= 1.0
    ensures step / subdiv > 0.0 && length / (step / subdiv) >= 0.0 && range / step >= 0.0
  {
  }

  lemma SearchIsSound(c: Config, s: Search, rawCount: real)
    requires ValidConfig(c) && s.subdiv == (if c.step >= 0.002 then 2 else 1) && s.dt == c.step / s.subdiv as real
    requires rawCount == (s.end - s.start) / s.dt && s.count == rawCount.Floor && s.steps == (c.range / c.step).Floor
    requires s.dt > 0.0
    ensures SearchOf(c, s)
  {
    FloorTimes(rawCount, s.dt);
    FloorTimes(c.range / c.step, c.step);
    assert rawCount * s.dt == s.end - s.start;
    assert (c.range / c.step) * c.step == c.range;
  }

  lemma FloorTimes(x: real, unit: real)
    requires unit > 0.0
    ensures x.Floor as real * unit <= x * unit
  {
  }

  lemma SameBest(scores: seq<real>, best: nat, bestScore: real)
    requires FirstBest(scores, best) && bestScore > NoScore
    requires exists other: nat :: FirstBest(scores, other) && scores[other] == bestScore
    ensures scores[best] == bestScore && forall other: nat :: FirstBest(scores, other) ==> other == best
  {
  }

  lemma LagInRange(c: Config, s: Search, best: nat, lag: real, offset: real)
    requires ValidConfig(c) && SearchOf(c, s) && best < 2 * s.steps + 1 && lag == Lag(s.steps, best) as real * c.step
    requires lag - 0.5 * c.step <= offset <= lag + 0.5 * c.step
    requires best == 0 || best == 2 * s.steps ==> offset == lag
    ensures Distance(offset, 0.0) <= c.range
  {
    var k, steps := Lag(s.steps, best) as real, s.steps as real;
    if best == 0 || best == 2 * s.steps {
      EndLag(k, steps, c.step, lag, c.range);
    } else {
      assert -steps + 1.0 <= k <= steps - 1.0;
      var reach := s.steps as real * c.step;
      LagBetween(k, steps, c.step, lag, reach);
      assert reach <= c.range && 0.5 * c.step <= c.step;
      InsideOf(lag, offset, c.step, reach, c.range);
    }
  }

  lemma EndLag(k: real, steps: real, step: real, lag: real, range: real)
    requires (k == steps || k == -steps) && lag == k * step && steps * step <= range && steps >= 0.0 && step > 0.0
    ensures Distance(lag, 0.0) <= range
  {
    NotNegative(steps, step);
    var reach := steps * step;
    assert lag == reach || lag == -reach;
  }

  lemma InsideOf(lag: real, offset: real, step: real, reach: real, range: real)
    requires -reach + step <= lag <= reach - step && lag - 0.5 * step <= offset <= lag + 0.5 * step
    requires step > 0.0 && reach <= range
    ensures Distance(offset, 0.0) <= range
  {
  }

  lemma LagBetween(k: real, steps: real, step: real, lag: real, reach: real)
    requires -steps + 1.0 <= k <= steps - 1.0 && step > 0.0 && lag == k * step && reach == steps * step
    ensures -reach + step <= lag <= reach - step
  {
    NotNegative(steps - 1.0 - k, step);
    NotNegative(k + steps - 1.0, step);
    assert (steps - 1.0 - k) * step == reach - step - lag;
    assert (k + steps - 1.0) * step == lag + reach - step;
  }

  lemma NotNegative(a: real, b: real)
    requires a >= 0.0 && b >= 0.0
    ensures a * b >= 0.0
  {
  }
}
