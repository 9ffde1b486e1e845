// The pruned IMU buffer that hands out integration intervals, against the piecewise-linear
// signal through the whole sample history.
module ImuIntervals {
  datatype Vector = Vector(x: real, y: real, z: real)

  datatype ImuSample = ImuSample(stamp: real, acceleration: Vector, angularVelocity: Vector)

  datatype Segment = Segment(acceleration: Vector, angularVelocity: Vector, dt: real)

  datatype Reason = Valid | InvalidInterval | InsufficientImu | NotBracketed | GapTooLarge |
                    NonPositiveSegment | EmptyInterval | ClosureFailed

  datatype Interval = Interval(reason: Reason, start: real, end: real, sumDtSquared: real, medianDt: real,
                               owned: nat, segments: seq<Segment>)

  // The six scalar channels of a sample; every statement below holds for each of them.
  datatype Channel = AccX | AccY | AccZ | GyrX | GyrY | GyrZ

  function Of(a: Vector, w: Vector, ch: Channel): real {
    match ch
    case AccX => a.x
    case AccY => a.y
    case AccZ => a.z
    case GyrX => w.x
    case GyrY => w.y
    case GyrZ => w.z
  }

  function Value(s: ImuSample, ch: Channel): real { Of(s.acceleration, s.angularVelocity, ch) }

  // ---------- what one extraction computes ----------

  function Mix(a: Vector, b: Vector, u: real, v: real): Vector {
    Vector(u * a.x + v * b.x, u * a.y + v * b.y, u * a.z + v * b.z)
  }

  function Interpolate(left: ImuSample, right: ImuSample, stamp: real): ImuSample
    requires left.stamp < right.stamp
  {
    if stamp == left.stamp then left
    else if stamp == right.stamp then right
    else
      var alpha := (stamp - left.stamp) / (right.stamp - left.stamp);
      ImuSample(stamp, Mix(left.acceleration, right.acceleration, 1.0 - alpha, alpha),
                Mix(left.angularVelocity, right.angularVelocity, 1.0 - alpha, alpha))
  }

  predicate Increasing(h: seq<ImuSample>) {
    forall i, j :: 0 <= i < j < |h| ==> h[i].stamp < h[j].stamp
  }

  // The last index not after the time, or the length when there is none.
  function LastAtMost(h: seq<ImuSample>, t: real): (l: nat)
    ensures l <= |h|
  {
    if h == [] then 0
    else if h[|h| - 1].stamp <= t then |h| - 1
    else
      var l := LastAtMost(h[..|h| - 1], t);
      if l == |h| - 1 then |h| else l
  }

  // The first index not before the time, or the length when there is none.
  function FirstAtLeast(h: seq<ImuSample>, t: real): (r: nat)
    ensures r <= |h|
  {
    if h == [] || h[0].stamp >= t then 0 else 1 + FirstAtLeast(h[1..], t)
  }

  predicate GapFits(h: seq<ImuSample>, i: nat, gap: real)
    requires i + 1 < |h|
  {
    0.0 < h[i + 1].stamp - h[i].stamp <= gap
  }

  predicate GapsFit(h: seq<ImuSample>, l: nat, r: nat, gap: real)
    requires r < |h|
  {
    forall i: nat :: l <= i < r ==> GapFits(h, i, gap)
  }

  function Knots(h: seq<ImuSample>, l: nat, r: nat, start: real, end: real): seq<ImuSample>
    requires l < r < |h| && h[l].stamp < h[l + 1].stamp && h[r - 1].stamp < h[r].stamp
  {
    [Interpolate(h[l], h[l + 1], start)] + h[l + 1..r] + [Interpolate(h[r - 1], h[r], end)]
  }

  function Half(a: Vector, b: Vector): Vector { Mix(a, b, 0.5, 0.5) }

  function SegmentOf(a: ImuSample, b: ImuSample): Segment {
    Segment(Half(a.acceleration, b.acceleration), Half(a.angularVelocity, b.angularVelocity), b.stamp - a.stamp)
  }

  function Segments(knots: seq<ImuSample>): seq<Segment>
    requires knots != []
  {
    if |knots| == 1 then []
    else Segments(knots[..|knots| - 1]) + [SegmentOf(knots[|knots| - 2], knots[|knots| - 1])]
  }

  function SumSquares(segments: seq<Segment>): real {
    if segments == [] then 0.0
    else SumSquares(segments[..|segments| - 1]) + segments[|segments| - 1].dt * segments[|segments| - 1].dt
  }

  // How many samples lie in (start, end].
  function Owned(h: seq<ImuSample>, start: real, end: real): nat {
    if h == [] then 0
    else Owned(h[..|h| - 1], start, end) + if start < h[|h| - 1].stamp <= end then 1 else 0
  }

  function Duration(segments: seq<Segment>): real {
    if segments == [] then 0.0 else Duration(segments[..|segments| - 1]) + segments[|segments| - 1].dt
  }

  function Durations(segments: seq<Segment>): seq<real> {
    seq(|segments|, i requires 0 <= i < |segments| => segments[i].dt)
  }

  function Placed(s: seq<real>, x: real): (r: seq<real>)
    ensures |r| == |s| + 1
  {
    if s == [] || x <= s[0] then [x] + s else [s[0]] + Placed(s[1..], x)
  }

  // The durations sorted.
  function Ascending(s: seq<real>): (r: seq<real>)
    ensures |r| == |s|
  {
    if s == [] then [] else Placed(Ascending(s[..|s| - 1]), s[|s| - 1])
  }

  function Median(s: seq<real>): real
    requires s != []
  {
    var a, middle := Ascending(s), |s| / 2;
    if |s| % 2 == 1 then a[middle] else 0.5 * (a[middle - 1] + a[middle])
  }

  function Refused(start: real, end: real, reason: Reason): Interval {
    Interval(reason, start, end, 0.0, 0.0, 0, [])
  }

  predicate AllPositive(segments: seq<Segment>) {
    forall i :: 0 <= i < |segments| ==> segments[i].dt > 0.0
  }

  const CLOSURE := 0.000000001

  // The durations add up to the interval, within 1e-9 s or that fraction of it.
  predicate Closes(segments: seq<Segment>, length: real) {
    var error := Duration(segments) - length;
    var bound := CLOSURE * if length > 1.0 then length else 1.0;
    -bound <= error <= bound
  }

  // The interval cut out between these knots, with the checks made after the gaps were accepted.
  function Cutout(knots: seq<ImuSample>, start: real, end: real, owned: nat): (e: Interval)
    requires knots != []
    ensures e.reason == Valid ==>
              e.segments == Segments(knots) != [] && e.start == start && e.end == end && e.owned == owned &&
              e.sumDtSquared == SumSquares(e.segments) && e.medianDt == Median(Durations(e.segments))
  {
    var segments := Segments(knots);
    if !AllPositive(segments) then Refused(start, end, NonPositiveSegment)
    else if segments == [] then Refused(start, end, EmptyInterval)
    else if !Closes(segments, end - start) then Refused(start, end, ClosureFailed)
    else Interval(Valid, start, end, SumSquares(segments), Median(Durations(segments)), owned, segments)
  }

  function Extracted(h: seq<ImuSample>, start: real, end: real, gap: real): Interval
    requires Increasing(h)
  {
    var l, r := LastAtMost(h, start), FirstAtLeast(h, end);
    if end <= start then Refused(start, end, InvalidInterval)
    else if gap <= 0.0 || |h| < 2 then Refused(start, end, InsufficientImu)
    else if l == |h| || r == |h| || l >= r then Refused(start, end, NotBracketed)
    else if !GapsFit(h, l, r, gap) then Refused(start, end, GapTooLarge)
    else Cutout(Knots(h, l, r, start, end), start, end, Owned(h, start, end))
  }

  // Everything before the last sample not after the end is dropped.
  function Pruned(h: seq<ImuSample>, end: real): seq<ImuSample> {
    if |h| > 1 && h[1].stamp <= end then Pruned(h[1..], end) else h
  }

  // ---------- the integral of the signal ----------

  // A quantity that can be summed along the signal, on a chord between two points of it and on the
  // segment handed out for that chord.
  datatype Measure = Measure(piece: (ImuSample, ImuSample) -> real, segment: Segment -> real)

  // Names an instance of the additivity law, so that it is used only where a proof asks for it.
  predicate Cut(a: ImuSample, b: ImuSample, t: real, u: real) { true }

  predicate Splits(mu: Measure, a: ImuSample, b: ImuSample, t: real, u: real)
    requires a.stamp < b.stamp
  {
    mu.piece(a, Interpolate(a, b, u))
    == mu.piece(a, Interpolate(a, b, t)) + mu.piece(Interpolate(a, b, t), Interpolate(a, b, u))
  }

  // A segment weighs as much as its chord, a point weighs nothing, and a stretch of one chord weighs
  // as much as its two parts.
  ghost predicate Additive(mu: Measure) {
    && (forall a, b {:trigger mu.piece(a, b)} :: mu.segment(SegmentOf(a, b)) == mu.piece(a, b))
    && (forall a :: mu.piece(a, a) == 0.0)
    && (forall a, b, t, u {:trigger Cut(a, b, t, u)} ::
          Cut(a, b, t, u) && a.stamp < b.stamp ==> Splits(mu, a, b, t, u))
  }

  // The measure of the signal from the first sample to sample i.
  function Cumulative(h: seq<ImuSample>, i: nat, mu: Measure): real
    requires i < |h|
  {
    if i == 0 then 0.0 else Cumulative(h, i - 1, mu) + mu.piece(h[i - 1], h[i])
  }

  // The measure up to a time between samples b and b + 1.
  function Area(h: seq<ImuSample>, b: nat, t: real, mu: Measure): real
    requires b + 1 < |h| && h[b].stamp < h[b + 1].stamp
  {
    Cumulative(h, b, mu) + mu.piece(h[b], Interpolate(h[b], h[b + 1], t))
  }

  // The measure of the segments handed out.
  function Sum(segments: seq<Segment>, mu: Measure): real {
    if segments == [] then 0.0
    else Sum(segments[..|segments| - 1], mu) + mu.segment(segments[|segments| - 1])
  }

  // ---------- the integral of each channel is such a measure ----------

  // Integral of one channel over the chord between two samples.
  function Trapezoid(a: ImuSample, b: ImuSample, ch: Channel): real {
    0.5 * (Value(a, ch) + Value(b, ch)) * (b.stamp - a.stamp)
  }

  // Channel times duration, summed over the segments; the exact integral over the chords.
  function Integral(ch: Channel): Measure {
    Measure((a, b) => Trapezoid(a, b, ch), (g: Segment) => Of(g.acceleration, g.angularVelocity, ch) * g.dt)
  }

  lemma Quotient(c: real, d: real)
    requires d > 0.0
    ensures c / d * d == c
  {
  }

  lemma Chord(va: real, vb: real, alpha: real, d: real, k: real, e: real)
    requires alpha * d == e && k * d == vb - va
    ensures (1.0 - alpha) * va + alpha * vb - va == k * e
  {
    calc {
      (1.0 - alpha) * va + alpha * vb - va;
      alpha * (vb - va);
      alpha * (k * d);
      k * (alpha * d);
    }
  }

  // An interpolated value lies on the chord with slope k.
  lemma ValueAt(a: ImuSample, b: ImuSample, t: real, ch: Channel, k: real, p: ImuSample)
    requires a.stamp < b.stamp && k * (b.stamp - a.stamp) == Value(b, ch) - Value(a, ch)
    requires p == Interpolate(a, b, t)
    ensures Value(p, ch) - Value(a, ch) == k * (p.stamp - a.stamp) && p.stamp == t
  {
    if t == a.stamp {
      NoWidth(k, t - a.stamp);
    } else if t != b.stamp {
      InsideValue(a, b, t, ch, k, p);
    }
  }

  lemma InsideValue(a: ImuSample, b: ImuSample, t: real, ch: Channel, k: real, p: ImuSample)
    requires a.stamp < b.stamp && k * (b.stamp - a.stamp) == Value(b, ch) - Value(a, ch)
    requires t != a.stamp && t != b.stamp && p == Interpolate(a, b, t)
    ensures Value(p, ch) - Value(a, ch) == k * (t - a.stamp)
  {
    var d := b.stamp - a.stamp;
    var alpha := (t - a.stamp) / d;
    MixedValue(a, b, alpha, ch, p);
    Quotient(t - a.stamp, d);
    Chord(Value(a, ch), Value(b, ch), alpha, d, k, t - a.stamp);
  }

  lemma MixedValue(a: ImuSample, b: ImuSample, alpha: real, ch: Channel, p: ImuSample)
    requires p.acceleration == Mix(a.acceleration, b.acceleration, 1.0 - alpha, alpha)
    requires p.angularVelocity == Mix(a.angularVelocity, b.angularVelocity, 1.0 - alpha, alpha)
    ensures Value(p, ch) == (1.0 - alpha) * Value(a, ch) + alpha * Value(b, ch)
  {
  }

  lemma NoWidth(k: real, d: real)
    requires d == 0.0
    ensures k * d == 0.0
  {
  }

  // Three points of one line: the trapezoids add up.
  lemma ChordsAdd(v: real, w: real, x: real, d: real, e: real, k: real)
    requires w - v == k * d && x - v == k * e
    ensures 0.5 * (v + x) * e == 0.5 * (v + w) * d + 0.5 * (w + x) * (e - d)
  {
    calc {
      0.5 * (v + w) * d + 0.5 * (w + x) * (e - d);
      0.5 * (v + v + k * d) * d + 0.5 * (v + k * d + v + k * e) * (e - d);
      v * d + 0.5 * (k * d * d) + v * (e - d) + 0.5 * ((k * d + k * e) * (e - d));
      { assert (k * d + k * e) * (e - d) == k * e * e - k * d * d; }
      v * e + 0.5 * (k * e * e);
      0.5 * (v + v + k * e) * e;
    }
  }

  lemma Slope(a: ImuSample, b: ImuSample, ch: Channel) returns (k: real)
    requires a.stamp < b.stamp
    ensures k * (b.stamp - a.stamp) == Value(b, ch) - Value(a, ch)
  {
    k := (Value(b, ch) - Value(a, ch)) / (b.stamp - a.stamp);
    Quotient(Value(b, ch) - Value(a, ch), b.stamp - a.stamp);
  }

  // Splitting a stretch of one chord in two does not change its integral.
  lemma ChordSplits(a: ImuSample, b: ImuSample, t: real, u: real, ch: Channel)
    requires a.stamp < b.stamp
    ensures Trapezoid(a, Interpolate(a, b, u), ch) ==
            Trapezoid(a, Interpolate(a, b, t), ch) + Trapezoid(Interpolate(a, b, t), Interpolate(a, b, u), ch)
  {
    var k := Slope(a, b, ch);
    var p, q := Interpolate(a, b, t), Interpolate(a, b, u);
    ValueAt(a, b, t, ch, k, p);
    ValueAt(a, b, u, ch, k, q);
    SplitTrapezoid(a, p, q, ch, k);
  }

  lemma SplitTrapezoid(a: ImuSample, p: ImuSample, q: ImuSample, ch: Channel, k: real)
    requires Value(p, ch) - Value(a, ch) == k * (p.stamp - a.stamp)
    requires Value(q, ch) - Value(a, ch) == k * (q.stamp - a.stamp)
    ensures Trapezoid(a, q, ch) == Trapezoid(a, p, ch) + Trapezoid(p, q, ch)
  {
    ChordsAdd(Value(a, ch), Value(p, ch), Value(q, ch), p.stamp - a.stamp, q.stamp - a.stamp, k);
  }

  lemma SegmentWeighs(a: ImuSample, b: ImuSample, ch: Channel)
    ensures Integral(ch).segment(SegmentOf(a, b)) == Trapezoid(a, b, ch)
  {
    var g := SegmentOf(a, b);
    MixedHalf(a, b, ch, g);
    Regroup(Value(a, ch), Value(b, ch), g.dt);
  }

  lemma MixedHalf(a: ImuSample, b: ImuSample, ch: Channel, g: Segment)
    requires g == SegmentOf(a, b)
    ensures Of(g.acceleration, g.angularVelocity, ch) == 0.5 * Value(a, ch) + 0.5 * Value(b, ch)
  {
  }

  lemma Regroup(a: real, b: real, d: real)
    ensures (0.5 * a + 0.5 * b) * d == 0.5 * (a + b) * d
  {
  }

  lemma PointWeighsNothing(a: ImuSample, ch: Channel)
    ensures Trapezoid(a, a, ch) == 0.0
  {
    NoWidth(0.5 * (Value(a, ch) + Value(a, ch)), a.stamp - a.stamp);
  }

  lemma IntegralIsAdditive(ch: Channel)
    ensures Additive(Integral(ch))
  {
    var mu := Integral(ch);
    forall a, b ensures mu.segment(SegmentOf(a, b)) == mu.piece(a, b) { SegmentWeighs(a, b, ch); }
    forall a ensures mu.piece(a, a) == 0.0 { PointWeighsNothing(a, ch); }
    forall a: ImuSample, b: ImuSample, t, u | Cut(a, b, t, u) && a.stamp < b.stamp
      ensures Splits(mu, a, b, t, u)
    {
      ChordSplits(a, b, t, u, ch);
    }
  }

  // ---------- what an extraction hands out ----------

  function ChordSum(knots: seq<ImuSample>, mu: Measure): real
    requires knots != []
  {
    if |knots| == 1 then 0.0
    else ChordSum(knots[..|knots| - 1], mu) + mu.piece(knots[|knots| - 2], knots[|knots| - 1])
  }

  lemma {:induction false} SumIsChords(knots: seq<ImuSample>, mu: Measure)
    requires Additive(mu)
    requires knots != []
    ensures Sum(Segments(knots), mu) == ChordSum(knots, mu)
  {
    if |knots| > 1 {
      SumIsChords(knots[..|knots| - 1], mu);
      var segments := Segments(knots);
      assert segments[..|segments| - 1] == Segments(knots[..|knots| - 1]);
    }
  }

  lemma ChordAppend(knots: seq<ImuSample>, s: ImuSample, mu: Measure)
    requires knots != []
    ensures ChordSum(knots + [s], mu) == ChordSum(knots, mu) + mu.piece(knots[|knots| - 1], s)
  {
    assert (knots + [s])[..|knots|] == knots;
  }

  lemma InnerChords(s: ImuSample, inner: seq<ImuSample>, e: ImuSample, mu: Measure)
    requires inner != []
    ensures ChordSum([s] + inner + [e], mu) == ChordSum([s] + inner, mu) + mu.piece(inner[|inner| - 1], e)
  {
    ChordAppend([s] + inner, e, mu);
  }

  // The knots up to sample m.
  lemma {:induction false} LeftPart(h: seq<ImuSample>, l: nat, m: nat, start: real, mu: Measure)
    requires Additive(mu)
    requires Increasing(h) && l < m < |h|
    ensures var s0 := Interpolate(h[l], h[l + 1], start);
            ChordSum([s0] + h[l + 1..m + 1], mu) == Cumulative(h, m, mu) - Area(h, l, start, mu)
    decreases m
  {
    var s0 := Interpolate(h[l], h[l + 1], start);
    assert [s0] + h[l + 1..m + 1] == [s0] + h[l + 1..m] + [h[m]];
    if m == l + 1 {
      ChordAppend([s0], h[m], mu);
      assert [s0] + h[l + 1..m] == [s0];
      assert Cut(h[l], h[m], start, h[m].stamp);
      assert Interpolate(h[l], h[m], h[m].stamp) == h[m];
    } else {
      InnerChords(s0, h[l + 1..m], h[m], mu);
      LeftPart(h, l, m - 1, start, mu);
    }
  }

  // A valid extraction hands out the exact integral of the signal over its interval.
  lemma ExtractionIsIntegral(h: seq<ImuSample>, l: nat, r: nat, start: real, end: real, mu: Measure)
    requires Additive(mu)
    requires Increasing(h) && l < r < |h|
    ensures Sum(Segments(Knots(h, l, r, start, end)), mu) == Area(h, r - 1, end, mu) - Area(h, l, start, mu)
  {
    SumIsChords(Knots(h, l, r, start, end), mu);
    var s0, e0 := Interpolate(h[l], h[l + 1], start), Interpolate(h[r - 1], h[r], end);
    if r == l + 1 {
      ChordAppend([s0], e0, mu);
      assert [s0] + h[l + 1..r] == [s0];
      assert Cut(h[l], h[r], start, end);
    } else {
      InnerChords(s0, h[l + 1..r], e0, mu);
      LeftPart(h, l, r - 1, start, mu);
    }
  }

  // ---------- where a time lies in the history ----------

  lemma {:induction false} FirstAtLeastIs(h: seq<ImuSample>, t: real)
    ensures var r := FirstAtLeast(h, t);
            (forall i :: 0 <= i < r ==> h[i].stamp < t) && (r < |h| ==> h[r].stamp >= t)
  {
    if h != [] && h[0].stamp < t {
      FirstAtLeastIs(h[1..], t);
      var r := FirstAtLeast(h, t);
      forall i | 0 <= i < r
        ensures h[i].stamp < t
      {
        if i > 0 {
          assert h[i] == h[1..][i - 1];
        }
      }
    }
  }

  lemma {:induction false} LastAtMostIs(h: seq<ImuSample>, t: real)
    requires Increasing(h)
    ensures var l := LastAtMost(h, t);
            (l < |h| ==> h[l].stamp <= t) && forall i :: 0 <= i < |h| && (l == |h| || l < i) ==> h[i].stamp > t
  {
    if h != [] && h[|h| - 1].stamp > t {
      LastAtMostIs(h[..|h| - 1], t);
    }
  }

  // A time inside the history: after or at the first sample, before or at the last one.
  predicate Covers(h: seq<ImuSample>, t: real) {
    h != [] && h[0].stamp <= t <= h[|h| - 1].stamp
  }

  lemma CoveredIndex(h: seq<ImuSample>, t: real)
    requires Increasing(h) && Covers(h, t)
    ensures FirstAtLeast(h, t) < |h|
    ensures FirstAtLeast(h, t) == 0 ==> h[0].stamp == t
  {
    FirstAtLeastIs(h, t);
  }

  // Integral of the signal from the first sample to t.
  function AreaTo(h: seq<ImuSample>, t: real, mu: Measure): real
    requires Increasing(h) && Covers(h, t)
  {
    CoveredIndex(h, t);
    var r := FirstAtLeast(h, t);
    if r == 0 then 0.0 else Area(h, r - 1, t, mu)
  }

  lemma {:induction false} FirstAtLeastUnique(h: seq<ImuSample>, t: real, r: nat)
    requires Increasing(h) && r < |h| && h[r].stamp >= t && (r > 0 ==> h[r - 1].stamp < t)
    ensures FirstAtLeast(h, t) == r
  {
    FirstAtLeastIs(h, t);
    forall i | 0 <= i < r
      ensures h[i].stamp < t
    {
      assert h[i].stamp <= h[r - 1].stamp;
    }
  }

  // The bracket from the left gives the same integral as the one from the right.
  lemma AreaFromLeft(h: seq<ImuSample>, l: nat, t: real, mu: Measure)
    requires Additive(mu)
    requires Increasing(h) && l + 1 < |h| && h[l].stamp <= t < h[l + 1].stamp
    ensures Covers(h, t) && Area(h, l, t, mu) == AreaTo(h, t, mu)
  {
    assert h[0].stamp <= h[l].stamp && h[l + 1].stamp <= h[|h| - 1].stamp;
    if h[l].stamp < t {
      FirstAtLeastUnique(h, t, l + 1);
    } else {
      AreaAtSample(h, l, mu);
    }
  }

  // The integral handed out by a valid extraction, in terms of the whole signal.
  lemma ExtractedArea(h: seq<ImuSample>, start: real, end: real, gap: real, mu: Measure)
    requires Additive(mu)
    requires Increasing(h) && Extracted(h, start, end, gap).reason == Valid
    ensures Covers(h, start) && Covers(h, end)
    ensures Sum(Extracted(h, start, end, gap).segments, mu) == AreaTo(h, end, mu) - AreaTo(h, start, mu)
  {
    var l, r := LastAtMost(h, start), FirstAtLeast(h, end);
    LastAtMostIs(h, start);
    FirstAtLeastIs(h, end);
    assert h[0].stamp <= h[l].stamp && h[r].stamp <= h[|h| - 1].stamp;
    ExtractionIsIntegral(h, l, r, start, end, mu);
    AreaFromLeft(h, l, start, mu);
  }

  lemma {:induction false} CumulativeSuffix(h: seq<ImuSample>, k: nat, i: nat, mu: Measure)
    requires k + i < |h|
    ensures Cumulative(h[k..], i, mu) == Cumulative(h, k + i, mu) - Cumulative(h, k, mu)
  {
    if i > 0 {
      CumulativeSuffix(h, k, i - 1, mu);
    }
  }

  lemma AreaAtSample(h: seq<ImuSample>, k: nat, mu: Measure)
    requires Increasing(h) && k < |h|
    ensures Covers(h, h[k].stamp) && AreaTo(h, h[k].stamp, mu) == Cumulative(h, k, mu)
  {
    FirstAtLeastUnique(h, h[k].stamp, k);
  }

  lemma AreaShift(h: seq<ImuSample>, k: nat, b: seq<ImuSample>, i: nat, n: nat, t: real, mu: Measure)
    requires n == k + i && n + 1 < |h| && h[n].stamp < h[n + 1].stamp && b == h[k..]
    ensures i + 1 < |b| && b[i] == h[n] && b[i + 1] == h[n + 1]
    ensures Area(b, i, t, mu) == Area(h, n, t, mu) - Cumulative(h, k, mu)
  {
    CumulativeSuffix(h, k, i, mu);
  }

  // Pruning the front shifts every integral by the same amount.
  lemma AreaSuffix(h: seq<ImuSample>, k: nat, b: seq<ImuSample>, t: real, mu: Measure)
    requires Increasing(h) && k < |h| && b == h[k..] && Increasing(b) && Covers(b, t)
    ensures Covers(h, t) && AreaTo(b, t, mu) == AreaTo(h, t, mu) - Cumulative(h, k, mu)
  {
    assert h[0].stamp <= h[k].stamp;
    FirstAtLeastIs(b, t);
    CoveredIndex(b, t);
    var r := FirstAtLeast(b, t);
    if r == 0 {
      AreaAtSample(h, k, mu);
    } else {
      ShiftedBracket(h, k, r, t);
      AreaToIs(b, t, r, r - 1, mu);
      AreaToIs(h, t, k + r, k + r - 1, mu);
      SameBracket(h, k, b, r, t, mu, AreaTo(b, t, mu), AreaTo(h, t, mu));
    }
  }

  lemma SameBracket(h: seq<ImuSample>, k: nat, b: seq<ImuSample>, r: nat, t: real, mu: Measure, low: real, high: real)
    requires k <= |h| && b == h[k..] && 0 < r < |b|
    requires b[r - 1].stamp < b[r].stamp && h[k + r - 1].stamp < h[k + r].stamp
    requires low == Area(b, r - 1, t, mu) && high == Area(h, k + r - 1, t, mu)
    ensures low == high - Cumulative(h, k, mu)
  {
    AreaShift(h, k, b, r - 1, k + r - 1, t, mu);
  }

  lemma AreaToIs(h: seq<ImuSample>, t: real, r: nat, n: nat, mu: Measure)
    requires Increasing(h) && Covers(h, t) && n + 1 == r == FirstAtLeast(h, t)
    ensures n + 1 < |h| && h[n].stamp < h[n + 1].stamp && AreaTo(h, t, mu) == Area(h, n, t, mu)
  {
    CoveredIndex(h, t);
  }

  lemma ShiftedBracket(h: seq<ImuSample>, k: nat, r: nat, t: real)
    requires Increasing(h) && 0 < r && k + r < |h| && h[k + r - 1].stamp < t <= h[k + r].stamp
    ensures FirstAtLeast(h, t) == k + r
  {
    FirstAtLeastUnique(h, t, k + r);
  }

  lemma {:induction false} CumulativePrefix(h: seq<ImuSample>, s: ImuSample, i: nat, mu: Measure)
    requires i < |h|
    ensures Cumulative(h + [s], i, mu) == Cumulative(h, i, mu)
  {
    if i > 0 {
      CumulativePrefix(h, s, i - 1, mu);
    }
  }

  // A later sample does not change the integral up to an earlier time.
  lemma AreaGrows(h: seq<ImuSample>, s: ImuSample, t: real, mu: Measure)
    requires Increasing(h + [s]) && Covers(h, t)
    ensures Increasing(h) && Covers(h + [s], t) && AreaTo(h + [s], t, mu) == AreaTo(h, t, mu)
  {
    assert Increasing(h) by {
      assert forall i :: 0 <= i < |h| ==> (h + [s])[i] == h[i];
    }
    var r := FirstAtLeast(h, t);
    CoveredIndex(h, t);
    FirstAtLeastIs(h, t);
    FirstAtLeastUnique(h + [s], t, r);
    assert h[|h| - 1].stamp < s.stamp by {
      assert (h + [s])[|h| - 1].stamp < (h + [s])[|h|].stamp;
    }
    if r > 0 {
      CumulativePrefix(h, s, r - 1, mu);
    }
  }

  // ---------- owned samples, durations and pruning ----------

  lemma {:induction false} OwnedSplits(h: seq<ImuSample>, a: real, b: real, c: real)
    requires a <= b <= c
    ensures Owned(h, a, c) == Owned(h, a, b) + Owned(h, b, c)
  {
    if h != [] {
      OwnedSplits(h[..|h| - 1], a, b, c);
    }
  }

  lemma {:induction false} OwnedEmpty(h: seq<ImuSample>, a: real)
    ensures Owned(h, a, a) == 0
  {
    if h != [] {
      OwnedEmpty(h[..|h| - 1], a);
    }
  }

  lemma OwnedGrows(h: seq<ImuSample>, s: ImuSample, a: real, b: real)
    requires s.stamp > b
    ensures Owned(h + [s], a, b) == Owned(h, a, b)
  {
    assert (h + [s])[..|h|] == h;
  }

  // Samples that were pruned are not after the start, so they are not owned again.
  lemma {:induction false} OwnedSuffix(h: seq<ImuSample>, k: nat, a: real, b: real)
    requires Increasing(h) && k < |h| && h[k].stamp <= a
    ensures Owned(h[k..], a, b) == Owned(h, a, b)
    decreases |h|
  {
    var m := |h| - 1;
    if k == m {
      assert h[k..] == [h[m]] && [h[m]][..0] == [];
      OldAreNotOwned(h, a, b);
    } else {
      OwnedSuffix(h[..m], k, a, b);
      assert h[k..][..|h| - k - 1] == h[..m][k..];
    }
  }

  lemma {:induction false} OldAreNotOwned(h: seq<ImuSample>, a: real, b: real)
    requires Increasing(h) && (h != [] ==> h[|h| - 1].stamp <= a)
    ensures Owned(h, a, b) == 0
    decreases |h|
  {
    if |h| > 1 {
      assert h[|h| - 2].stamp < h[|h| - 1].stamp;
    }
    if h != [] {
      OldAreNotOwned(h[..|h| - 1], a, b);
    }
  }

  predicate ShortSegments(segments: seq<Segment>, gap: real) {
    forall i :: 0 <= i < |segments| ==> 0.0 < segments[i].dt <= gap
  }

  lemma {:induction false} DurationIs(knots: seq<ImuSample>)
    requires knots != []
    ensures Duration(Segments(knots)) == knots[|knots| - 1].stamp - knots[0].stamp
    ensures |Segments(knots)| == |knots| - 1
    ensures forall i :: 0 <= i < |knots| - 1 ==> Segments(knots)[i].dt == knots[i + 1].stamp - knots[i].stamp
  {
    if |knots| > 1 {
      DurationIs(knots[..|knots| - 1]);
      assert Segments(knots)[..|knots| - 2] == Segments(knots[..|knots| - 1]);
    }
  }

  lemma Product(x: real, gap: real)
    requires 0.0 < x <= gap
    ensures x * x <= gap * x
  {
  }

  lemma {:induction false} SquaresBounded(segments: seq<Segment>, gap: real)
    requires ShortSegments(segments, gap)
    ensures SumSquares(segments) <= gap * Duration(segments)
  {
    if segments != [] {
      var init, dt := segments[..|segments| - 1], segments[|segments| - 1].dt;
      SquaresBounded(init, gap);
      Product(dt, gap);
      assert gap * (Duration(init) + dt) == gap * Duration(init) + gap * dt;
    }
  }

  predicate Brackets(h: seq<ImuSample>, l: nat, r: nat, start: real, end: real) {
    l < r < |h| && h[l].stamp <= start < h[l + 1].stamp && h[r - 1].stamp < end <= h[r].stamp && start < end
  }

  lemma KnotsAreClose(h: seq<ImuSample>, l: nat, r: nat, start: real, end: real, gap: real, i: nat)
    requires Increasing(h) && l < r < |h| && GapsFit(h, l, r, gap)
    requires Brackets(h, l, r, start, end)
    requires i < |Knots(h, l, r, start, end)| - 1
    ensures var knots := Knots(h, l, r, start, end);
            0.0 < knots[i + 1].stamp - knots[i].stamp <= gap
  {
    assert GapFits(h, l + i, gap);
  }

  lemma ValidBrackets(h: seq<ImuSample>, start: real, end: real, gap: real)
    requires Increasing(h) && Extracted(h, start, end, gap).reason == Valid
    ensures Brackets(h, LastAtMost(h, start), FirstAtLeast(h, end), start, end)
    ensures GapsFit(h, LastAtMost(h, start), FirstAtLeast(h, end), gap)
  {
    LastAtMostIs(h, start);
    FirstAtLeastIs(h, end);
  }

  lemma KnotSegmentsAreFine(h: seq<ImuSample>, l: nat, r: nat, start: real, end: real, gap: real, knots: seq<ImuSample>)
    requires Increasing(h) && Brackets(h, l, r, start, end) && GapsFit(h, l, r, gap)
    requires knots == Knots(h, l, r, start, end)
    ensures ShortSegments(Segments(knots), gap) && Duration(Segments(knots)) == end - start
  {
    DurationIs(knots);
    forall i | 0 <= i < |Segments(knots)|
      ensures 0.0 < Segments(knots)[i].dt <= gap
    {
      KnotsAreClose(h, l, r, start, end, gap, i);
    }
    assert knots[0].stamp == start && knots[|knots| - 1].stamp == end;
  }

  // Every segment is positive and no longer than the gap limit, and the durations close exactly.
  predicate Fine(e: Interval, gap: real) {
    e.start < e.end && ShortSegments(e.segments, gap) && Duration(e.segments) == e.end - e.start &&
    e.sumDtSquared == SumSquares(e.segments) &&
    e.segments != [] && e.medianDt == Median(Durations(e.segments))
  }

  lemma ExtractionIsFine(h: seq<ImuSample>, start: real, end: real, gap: real)
    requires Increasing(h) && Extracted(h, start, end, gap).reason == Valid
    ensures Fine(Extracted(h, start, end, gap), gap)
  {
    var l, r := LastAtMost(h, start), FirstAtLeast(h, end);
    ValidBrackets(h, start, end, gap);
    KnotSegmentsAreFine(h, l, r, start, end, gap, Knots(h, l, r, start, end));
  }

  // The sum of squared durations is at most the gap limit times the duration.
  lemma FineSquares(e: Interval, gap: real)
    requires Fine(e, gap)
    ensures e.sumDtSquared <= gap * (e.end - e.start)
  {
    SquaresBounded(e.segments, gap);
  }

  predicate Rising(s: seq<real>) { forall i, j :: 0 <= i < j < |s| ==> s[i] <= s[j] }

  lemma {:induction false} PlacedKeeps(s: seq<real>, x: real)
    ensures multiset(Placed(s, x)) == multiset(s) + multiset{x}
  {
    if s != [] && s[0] < x {
      PlacedKeeps(s[1..], x);
      assert s == [s[0]] + s[1..];
    }
  }

  lemma {:induction false} PlacedRises(s: seq<real>, x: real)
    requires Rising(s)
    ensures Rising(Placed(s, x))
  {
    if s != [] && s[0] < x {
      PlacedRises(s[1..], x);
      PlacedKeeps(s[1..], x);
      var rest := Placed(s[1..], x);
      forall i | 0 <= i < |rest|
        ensures s[0] <= rest[i]
      {
        assert rest[i] in multiset(rest);
      }
      HeadRises(s[0], rest);
    }
  }

  lemma HeadRises(x: real, rest: seq<real>)
    requires Rising(rest) && forall i :: 0 <= i < |rest| ==> x <= rest[i]
    ensures Rising([x] + rest)
  {
  }

  lemma {:induction false} AscendingSorts(s: seq<real>)
    ensures Rising(Ascending(s)) && multiset(Ascending(s)) == multiset(s)
  {
    if s != [] {
      var init := s[..|s| - 1];
      AscendingSorts(init);
      PlacedRises(Ascending(init), s[|s| - 1]);
      PlacedKeeps(Ascending(init), s[|s| - 1]);
      assert s == init + [s[|s| - 1]];
    }
  }

  // The median step is a duration like any other: positive and within the gap limit.
  lemma FineMedian(e: Interval, gap: real)
    requires Fine(e, gap)
    ensures 0.0 < e.medianDt <= gap
  {
    var s := Durations(e.segments);
    AscendingSorts(s);
    forall x | x in Ascending(s)
      ensures 0.0 < x <= gap
    {
      assert x in multiset(s);
    }
    assert Ascending(s)[|s| / 2] in Ascending(s);
    if |s| % 2 == 0 { assert Ascending(s)[|s| / 2 - 1] in Ascending(s); }
  }

  lemma CutoutIsValid(h: seq<ImuSample>, l: nat, r: nat, start: real, end: real, gap: real, owned: nat)
    requires Increasing(h) && Brackets(h, l, r, start, end) && GapsFit(h, l, r, gap)
    ensures Cutout(Knots(h, l, r, start, end), start, end, owned).reason == Valid
  {
    var knots := Knots(h, l, r, start, end);
    KnotSegmentsAreFine(h, l, r, start, end, gap, knots);
    DurationIs(knots);
  }

  // The three reasons after the gap check are never given.
  lemma LateReasonsAreDead(h: seq<ImuSample>, start: real, end: real, gap: real)
    requires Increasing(h)
    ensures Extracted(h, start, end, gap).reason in {Valid, InvalidInterval, InsufficientImu, NotBracketed, GapTooLarge}
  {
    var l, r := LastAtMost(h, start), FirstAtLeast(h, end);
    LastAtMostIs(h, start);
    FirstAtLeastIs(h, end);
    if start < end && l < r < |h| && GapsFit(h, l, r, gap) {
      CutoutIsValid(h, l, r, start, end, gap, Owned(h, start, end));
    }
  }

  // Pruning keeps a suffix whose first sample is still not after the end, so the next interval
  // finds its left bracket.
  lemma {:induction false} PruningKeepsBracket(h: seq<ImuSample>, end: real) returns (k: nat)
    requires Increasing(h) && h != [] && h[0].stamp <= end
    ensures k < |h| && Pruned(h, end) == h[k..] && h[k].stamp <= end
    decreases |h|
  {
    if |h| > 1 && h[1].stamp <= end {
      k := PruningKeepsBracket(h[1..], end);
      k := k + 1;
    } else {
      k := 0;
    }
  }

  // ---------- runs ----------

  predicate Accepts(samples: seq<ImuSample>, s: ImuSample) {
    s.stamp > 0.0 && (samples == [] || s.stamp > samples[|samples| - 1].stamp)
  }

  // A sample arrives, or the next node asks for the interval up to its stamp.
  datatype Op = Add(sample: ImuSample) | Take(end: real)

  // The buffer, the stamp of the last node, every accepted sample, and the valid intervals.
  datatype Stream = Stream(samples: seq<ImuSample>, t: real, history: seq<ImuSample>, taken: seq<Interval>)

  function Do(st: Stream, op: Op, gap: real): Stream {
    match op
    case Add(s) =>
      if Accepts(st.samples, s) then st.(samples := st.samples + [s], history := st.history + [s]) else st
    case Take(end) =>
      if !Increasing(st.samples) then st
      else
        var e := Extracted(st.samples, st.t, end, gap);
        if e.reason == Valid then st.(samples := Pruned(st.samples, end), t := end, taken := st.taken + [e]) else st
  }

  function Run(t0: real, ops: seq<Op>, gap: real): Stream {
    if ops == [] then Stream([], t0, [], []) else Do(Run(t0, ops[..|ops| - 1], gap), ops[|ops| - 1], gap)
  }

  function SumAll(taken: seq<Interval>, mu: Measure): real {
    if taken == [] then 0.0 else SumAll(taken[..|taken| - 1], mu) + Sum(taken[|taken| - 1].segments, mu)
  }

  function OwnedAll(taken: seq<Interval>): nat {
    if taken == [] then 0 else OwnedAll(taken[..|taken| - 1]) + taken[|taken| - 1].owned
  }

  // The gaps of the history that meet (a, b) are within the limit.
  ghost predicate GapsOver(h: seq<ImuSample>, a: real, b: real, gap: real) {
    forall i: nat :: i + 1 < |h| && h[i + 1].stamp > a && h[i].stamp < b ==> GapFits(h, i, gap)
  }

  ghost predicate BufferOk(st: Stream, t0: real) {
    Increasing(st.history) && |st.samples| <= |st.history| &&
    st.samples == st.history[|st.history| - |st.samples|..] && Increasing(st.samples) &&
    (st.history != [] ==> st.samples != []) &&
    (if st.taken == [] then st.t == t0 && st.samples == st.history
     else Covers(st.samples, st.t) && Covers(st.history, t0) && Covers(st.history, st.t) && t0 <= st.t)
  }

  ghost predicate TakenOk(st: Stream, t0: real, gap: real) {
    (forall i :: 0 <= i < |st.taken| ==> Fine(st.taken[i], gap)) &&
    OwnedAll(st.taken) == Owned(st.history, t0, st.t) &&
    (st.taken != [] ==> GapsOver(st.history, t0, st.t, gap))
  }

  ghost predicate SumOk(st: Stream, t0: real, mu: Measure) {
    BufferOk(st, t0) && (st.taken != [] ==>
      SumAll(st.taken, mu) == AreaTo(st.history, st.t, mu) - AreaTo(st.history, t0, mu))
  }

  lemma AddKeepsBuffer(st: Stream, t0: real, s: ImuSample)
    requires BufferOk(st, t0) && Accepts(st.samples, s)
    ensures BufferOk(st.(samples := st.samples + [s], history := st.history + [s]), t0)
  {
    SuffixAppends(st.history, |st.history| - |st.samples|, st.samples, s);
    IncreasingAppends(st.history, s);
    IncreasingAppends(st.samples, s);
  }

  lemma SuffixAppends(h: seq<ImuSample>, n: nat, b: seq<ImuSample>, s: ImuSample)
    requires n <= |h| && b == h[n..]
    ensures b + [s] == (h + [s])[n..]
    ensures b != [] ==> b[|b| - 1] == h[|h| - 1]
  {
  }

  lemma IncreasingAppends(h: seq<ImuSample>, s: ImuSample)
    requires Increasing(h) && (h != [] ==> h[|h| - 1].stamp < s.stamp)
    ensures Increasing(h + [s])
  {
  }

  lemma TakeKeepsBuffer(st: Stream, t0: real, end: real, gap: real)
    requires BufferOk(st, t0) && Extracted(st.samples, st.t, end, gap).reason == Valid
    ensures BufferOk(Do(st, Take(end), gap), t0)
    ensures Covers(st.samples, st.t) && Covers(st.samples, end) && Covers(st.history, end)
  {
    TakeEffect(st, end, gap);
    ValidCovers(st.samples, st.t, end, gap);
    AfterTake(st, t0, end, Extracted(st.samples, st.t, end, gap), Do(st, Take(end), gap));
  }

  lemma TakeEffect(st: Stream, end: real, gap: real)
    requires Increasing(st.samples) && Extracted(st.samples, st.t, end, gap).reason == Valid
    ensures Do(st, Take(end), gap) ==
            st.(samples := Pruned(st.samples, end), t := end,
                taken := st.taken + [Extracted(st.samples, st.t, end, gap)])
  {
  }

  lemma AfterTake(st: Stream, t0: real, end: real, e: Interval, next: Stream)
    requires BufferOk(st, t0) && Covers(st.samples, st.t) && Covers(st.samples, end) && st.t < end
    requires next == st.(samples := Pruned(st.samples, end), t := end, taken := st.taken + [e])
    ensures BufferOk(next, t0) && Covers(st.history, end)
  {
    var k := PruningKeepsBracket(st.samples, end);
    PruneKeepsBuffer(st, t0, end, k, next);
  }

  lemma ValidCovers(h: seq<ImuSample>, start: real, end: real, gap: real)
    requires Increasing(h) && Extracted(h, start, end, gap).reason == Valid
    ensures start < end && Covers(h, start) && Covers(h, end)
  {
    var l, r := LastAtMost(h, start), FirstAtLeast(h, end);
    LastAtMostIs(h, start);
    FirstAtLeastIs(h, end);
    assert h[0].stamp <= h[l].stamp && h[r].stamp <= h[|h| - 1].stamp;
  }

  lemma PruneKeepsBuffer(st: Stream, t0: real, end: real, k: nat, next: Stream)
    requires BufferOk(st, t0) && Covers(st.samples, st.t) && Covers(st.samples, end) && st.t < end
    requires k < |st.samples| && st.samples[k].stamp <= end
    requires next.samples == st.samples[k..] && next.t == end && next.history == st.history && next.taken != []
    ensures BufferOk(next, t0) && Covers(st.history, end)
  {
    var n := |st.history| - |st.samples|;
    PruneCovers(st, t0, end, n, k, next.samples);
    SuffixIncreases(st.history, n + k, next.samples);
    BufferFits(next, t0, n + k);
  }

  lemma PruneCovers(st: Stream, t0: real, end: real, n: nat, k: nat, c: seq<ImuSample>)
    requires BufferOk(st, t0) && Covers(st.samples, st.t) && Covers(st.samples, end) && st.t < end
    requires n == |st.history| - |st.samples| && k < |st.samples| && st.samples[k].stamp <= end
    requires c == st.samples[k..]
    ensures |c| == |st.history| - (n + k) && c == st.history[n + k..] && Covers(c, end)
    ensures Covers(st.history, t0) && Covers(st.history, end) && t0 <= end
  {
    FrontIsOldest(st.history, n);
    PrunedIsBuffer(st.history, st.samples, n, end, k, c);
  }

  lemma BufferFits(st: Stream, t0: real, n: nat)
    requires Increasing(st.history) && Increasing(st.samples)
    requires n < |st.history| && |st.samples| == |st.history| - n && st.samples == st.history[n..]
    requires st.taken != [] && Covers(st.samples, st.t) && Covers(st.history, t0) && Covers(st.history, st.t)
    requires t0 <= st.t
    ensures BufferOk(st, t0)
  {
  }

  lemma FrontIsOldest(h: seq<ImuSample>, n: nat)
    requires Increasing(h) && n < |h|
    ensures h[0].stamp <= h[n].stamp <= h[|h| - 1].stamp
  {
  }

  lemma SuffixIncreases(h: seq<ImuSample>, n: nat, b: seq<ImuSample>)
    requires Increasing(h) && n <= |h| && b == h[n..]
    ensures Increasing(b)
  {
  }

  lemma PrunedIsBuffer(h: seq<ImuSample>, b: seq<ImuSample>, n: nat, end: real, k: nat, c: seq<ImuSample>)
    requires n < |h| && b == h[n..] && h[0].stamp <= h[n].stamp && Covers(b, end)
    requires k < |b| && b[k].stamp <= end && c == b[k..]
    ensures |c| == |h| - (n + k) && c == h[n + k..] && Covers(c, end) && Covers(h, end)
    ensures b[0] == h[n] && b[|b| - 1] == h[|h| - 1]
  {
    assert c[0] == b[k] && c[|c| - 1] == b[|b| - 1] == h[|h| - 1];
  }

  lemma AddKeepsSum(st: Stream, t0: real, s: ImuSample, mu: Measure)
    requires SumOk(st, t0, mu) && Accepts(st.samples, s)
    ensures SumOk(st.(samples := st.samples + [s], history := st.history + [s]), t0, mu)
  {
    AddKeepsBuffer(st, t0, s);
    if st.taken != [] {
      AreaGrows(st.history, s, st.t, mu);
      AreaGrows(st.history, s, t0, mu);
    }
  }

  lemma TakeKeepsSum(st: Stream, t0: real, end: real, gap: real, mu: Measure)
    requires Additive(mu)
    requires SumOk(st, t0, mu) && Extracted(st.samples, st.t, end, gap).reason == Valid
    ensures SumOk(Do(st, Take(end), gap), t0, mu)
  {
    TakeKeepsBuffer(st, t0, end, gap);
    TakenSum(st, t0, end, gap, mu, Do(st, Take(end), gap));
  }

  lemma TakenSum(st: Stream, t0: real, end: real, gap: real, mu: Measure, next: Stream)
    requires Additive(mu) && SumOk(st, t0, mu) && BufferOk(next, t0)
    requires Extracted(st.samples, st.t, end, gap).reason == Valid
    requires next.taken == st.taken + [Extracted(st.samples, st.t, end, gap)]
    requires next.t == end && next.history == st.history && st.samples != []
    ensures SumOk(next, t0, mu)
  {
    AreaOfTake(st, t0, end, gap, mu);
    OneMoreSum(st, t0, Extracted(st.samples, st.t, end, gap), next, mu);
  }

  lemma AreaOfTake(st: Stream, t0: real, end: real, gap: real, mu: Measure)
    requires Additive(mu) && BufferOk(st, t0) && st.samples != []
    requires Extracted(st.samples, st.t, end, gap).reason == Valid
    ensures Covers(st.history, st.t) && Covers(st.history, end)
    ensures Sum(Extracted(st.samples, st.t, end, gap).segments, mu)
         == AreaTo(st.history, end, mu) - AreaTo(st.history, st.t, mu)
  {
    TakenArea(st.history, |st.history| - |st.samples|, st.samples, st.t, end, gap, mu);
  }

  // The integral handed out from the pruned buffer, in terms of the whole history.
  lemma TakenArea(h: seq<ImuSample>, k: nat, b: seq<ImuSample>, t: real, end: real, gap: real, mu: Measure)
    requires Additive(mu)
    requires Increasing(h) && k < |h| && b == h[k..] && Increasing(b)
    requires Extracted(b, t, end, gap).reason == Valid
    ensures Covers(h, t) && Covers(h, end)
    ensures Sum(Extracted(b, t, end, gap).segments, mu) == AreaTo(h, end, mu) - AreaTo(h, t, mu)
  {
    ExtractedArea(b, t, end, gap, mu);
    AreaSuffix(h, k, b, t, mu);
    AreaSuffix(h, k, b, end, mu);
  }

  lemma OneMoreSum(st: Stream, t0: real, e: Interval, next: Stream, mu: Measure)
    requires SumOk(st, t0, mu) && BufferOk(next, t0) && Covers(st.history, st.t)
    requires next.taken == st.taken + [e] && next.history == st.history
    requires Covers(st.history, next.t)
    requires Sum(e.segments, mu) == AreaTo(st.history, next.t, mu) - AreaTo(st.history, st.t, mu)
    ensures SumOk(next, t0, mu)
  {
    assert next.taken[..|st.taken|] == st.taken;
  }

  // Over any run of arrivals and extractions, for every channel, the integrals handed out add up
  // to the integral of the whole signal between the first and the last node.
  lemma {:induction false} RunIntegrates(t0: real, ops: seq<Op>, gap: real, mu: Measure)
    requires Additive(mu)
    ensures SumOk(Run(t0, ops, gap), t0, mu)
  {
    if ops != [] {
      RunIntegrates(t0, ops[..|ops| - 1], gap, mu);
      var st := Run(t0, ops[..|ops| - 1], gap);
      match ops[|ops| - 1]
      case Add(s) =>
        if Accepts(st.samples, s) {
          AddKeepsSum(st, t0, s, mu);
        }
      case Take(end) =>
        if Extracted(st.samples, st.t, end, gap).reason == Valid {
          TakeKeepsSum(st, t0, end, gap, mu);
        }
    }
  }

  lemma AddKeepsTaken(st: Stream, t0: real, gap: real, s: ImuSample)
    requires BufferOk(st, t0) && TakenOk(st, t0, gap) && Accepts(st.samples, s)
    ensures TakenOk(st.(samples := st.samples + [s], history := st.history + [s]), t0, gap)
  {
    var h := st.history + [s];
    if st.taken == [] {
      OwnedEmpty(st.history, t0);
      OwnedEmpty(h, t0);
    } else {
      assert st.samples[|st.samples| - 1] == st.history[|st.history| - 1];
      OwnedGrows(st.history, s, t0, st.t);
      forall i: nat | i + 1 < |h| && h[i + 1].stamp > t0 && h[i].stamp < st.t
        ensures GapFits(h, i, gap)
      {
        assert i + 1 < |st.history|;
        assert GapFits(st.history, i, gap);
      }
    }
  }

  // The gaps that a valid extraction has checked, seen in the whole history.
  lemma CheckedGaps(h: seq<ImuSample>, n: nat, b: seq<ImuSample>, l: nat, r: nat, start: real, end: real, gap: real)
    requires Increasing(h) && n <= |h| && b == h[n..] && Brackets(b, l, r, start, end) && GapsFit(b, l, r, gap)
    ensures GapsOver(h, start, end, gap)
  {
    forall i: nat | i + 1 < |h| && h[i + 1].stamp > start && h[i].stamp < end
      ensures GapFits(h, i, gap)
    {
      assert h[n + l] == b[l] && h[n + r] == b[r];
      assert n + l <= i < n + r;
      assert GapFits(b, i - n, gap);
    }
  }

  lemma GapsJoin(h: seq<ImuSample>, a: real, b: real, c: real, gap: real)
    requires Increasing(h) && (a < b ==> GapsOver(h, a, b, gap)) && GapsOver(h, b, c, gap) && a <= b
    ensures GapsOver(h, a, c, gap)
  {
    forall i: nat | i + 1 < |h| && h[i + 1].stamp > a && h[i].stamp < c
      ensures GapFits(h, i, gap)
    {
      if h[i + 1].stamp <= b {
        assert h[i].stamp < h[i + 1].stamp;
      }
    }
  }

  lemma TakeKeepsTaken(st: Stream, t0: real, end: real, gap: real)
    requires BufferOk(st, t0) && TakenOk(st, t0, gap) && Extracted(st.samples, st.t, end, gap).reason == Valid
    ensures TakenOk(Do(st, Take(end), gap), t0, gap)
  {
    var e := Extracted(st.samples, st.t, end, gap);
    TakenIsFine(st.history, |st.history| - |st.samples|, st.samples, st.t, end, gap, e);
    OneMoreTaken(st, t0, end, gap, e, Do(st, Take(end), gap));
  }

  lemma TakenIsFine(h: seq<ImuSample>, n: nat, b: seq<ImuSample>, t: real, end: real, gap: real, e: Interval)
    requires Increasing(h) && n <= |h| && b == h[n..] && Increasing(b)
    requires e == Extracted(b, t, end, gap) && e.reason == Valid
    ensures t < end && Covers(b, t) && Fine(e, gap) && e.owned == Owned(b, t, end) && GapsOver(h, t, end, gap)
  {
    ValidCovers(b, t, end, gap);
    ExtractionIsFine(b, t, end, gap);
    ValidBrackets(b, t, end, gap);
    CheckedGaps(h, n, b, LastAtMost(b, t), FirstAtLeast(b, end), t, end, gap);
  }

  lemma OneMoreTaken(st: Stream, t0: real, end: real, gap: real, e: Interval, next: Stream)
    requires BufferOk(st, t0) && TakenOk(st, t0, gap) && Covers(st.samples, st.t) && st.t < end
    requires Fine(e, gap) && e.owned == Owned(st.samples, st.t, end) && GapsOver(st.history, st.t, end, gap)
    requires next.history == st.history && next.t == end && next.taken == st.taken + [e]
    ensures TakenOk(next, t0, gap)
  {
    assert next.taken[..|st.taken|] == st.taken;
    OwnedSuffix(st.history, |st.history| - |st.samples|, st.t, end);
    OwnedSplits(st.history, t0, st.t, end);
    GapsJoin(st.history, t0, st.t, end, gap);
  }

  lemma {:induction false} RunTakesFine(t0: real, ops: seq<Op>, gap: real)
    ensures BufferOk(Run(t0, ops, gap), t0) && TakenOk(Run(t0, ops, gap), t0, gap)
  {
    if ops == [] {
      OwnedEmpty([], t0);
    } else {
      RunTakesFine(t0, ops[..|ops| - 1], gap);
      IntegralIsAdditive(AccX);
      RunIntegrates(t0, ops, gap, Integral(AccX));
      var st := Run(t0, ops[..|ops| - 1], gap);
      match ops[|ops| - 1]
      case Add(s) =>
        if Accepts(st.samples, s) {
          AddKeepsTaken(st, t0, gap, s);
        }
      case Take(end) =>
        if Extracted(st.samples, st.t, end, gap).reason == Valid {
          TakeKeepsTaken(st, t0, end, gap);
        }
    }
  }

  // Each interval starts where the one before it ended.
  predicate Joined(taken: seq<Interval>, t0: real, t: real) {
    if taken == [] then t == t0
    else
      var last := taken[|taken| - 1];
      last.start < last.end == t && Joined(taken[..|taken| - 1], t0, last.start)
  }

  lemma {:induction false} RunJoins(t0: real, ops: seq<Op>, gap: real)
    ensures Joined(Run(t0, ops, gap).taken, t0, Run(t0, ops, gap).t)
  {
    if ops != [] {
      RunJoins(t0, ops[..|ops| - 1], gap);
      DoJoins(Run(t0, ops[..|ops| - 1], gap), t0, ops[|ops| - 1], gap);
    }
  }

  lemma DoJoins(st: Stream, t0: real, op: Op, gap: real)
    requires Joined(st.taken, t0, st.t)
    ensures Joined(Do(st, op, gap).taken, t0, Do(st, op, gap).t)
  {
    var next := Do(st, op, gap);
    if next.taken != st.taken {
      assert next.taken[..|st.taken|] == st.taken;
    }
  }

  predicate Within(e: Interval, x: real) { e.start < x <= e.end }

  lemma {:induction false} JoinedBounds(taken: seq<Interval>, t0: real, t: real, i: nat)
    requires Joined(taken, t0, t) && i < |taken|
    ensures t0 <= taken[i].start < taken[i].end <= t
  {
    var n := |taken| - 1;
    if i < n {
      JoinedBounds(taken[..n], t0, taken[n].start, i);
    } else if n > 0 {
      JoinedBounds(taken[..n], t0, taken[n].start, 0);
      JoinedBounds(taken[..n], t0, taken[n].start, n - 1);
    }
  }

  // Joined intervals own every time between the first and the last node exactly once.
  lemma {:induction false} OwnedByOne(taken: seq<Interval>, t0: real, t: real, x: real)
    requires Joined(taken, t0, t)
    ensures t0 < x <= t <==> exists i :: 0 <= i < |taken| && Within(taken[i], x)
    ensures forall i, j :: 0 <= i < j < |taken| ==> !(Within(taken[i], x) && Within(taken[j], x))
  {
    if taken != [] {
      var n := |taken| - 1;
      var init := taken[..n];
      OwnedByOne(init, t0, taken[n].start, x);
      JoinedBounds(taken, t0, t, n);
      if t0 < x <= taken[n].start {
        var i :| 0 <= i < |init| && Within(init[i], x);
        assert Within(taken[i], x);
      } else if t0 < x <= t {
        assert Within(taken[n], x);
      }
      forall i | 0 <= i < |taken| && Within(taken[i], x)
        ensures t0 < x <= t && (i < n ==> x <= taken[n].start)
      {
        JoinedBounds(taken, t0, t, i);
        if i < n { JoinedBounds(init, t0, taken[n].start, i); }
      }
    }
  }

  // Main result: over any run each accepted sample between the first and the last node is owned by
  // exactly one interval.
  lemma SamplesAreOwnedOnce(t0: real, ops: seq<Op>, gap: real, k: nat)
    requires k < |Run(t0, ops, gap).history|
    ensures var st := Run(t0, ops, gap);
            var x := st.history[k].stamp;
            && (t0 < x <= st.t <==> exists i :: 0 <= i < |st.taken| && Within(st.taken[i], x))
            && (forall i, j :: 0 <= i < j < |st.taken| ==> !(Within(st.taken[i], x) && Within(st.taken[j], x)))
  {
    var st := Run(t0, ops, gap);
    RunJoins(t0, ops, gap);
    OwnedByOne(st.taken, t0, st.t, st.history[k].stamp);
  }

  // One extraction over the joined interval on the unpruned history is valid as well; it hands
  // out the same integrals and owns the same number of samples as the pieces together.
  lemma JoinedExtraction(t0: real, ops: seq<Op>, gap: real, mu: Measure)
    requires Additive(mu)
    requires gap > 0.0 && Run(t0, ops, gap).taken != []
    ensures var st := Run(t0, ops, gap);
            Increasing(st.history) &&
            var e := Extracted(st.history, t0, st.t, gap);
            e.reason == Valid && Sum(e.segments, mu) == SumAll(st.taken, mu) && e.owned == OwnedAll(st.taken)
  {
    RunTakesFine(t0, ops, gap);
    RunIntegrates(t0, ops, gap, mu);
    RunMovesForward(t0, ops, gap);
    StreamJoins(Run(t0, ops, gap), t0, gap, mu);
  }

  lemma StreamJoins(st: Stream, t0: real, gap: real, mu: Measure)
    requires Additive(mu) && gap > 0.0 && st.taken != [] && t0 < st.t
    requires SumOk(st, t0, mu) && TakenOk(st, t0, gap)
    ensures var e := Extracted(st.history, t0, st.t, gap);
            e.reason == Valid && Sum(e.segments, mu) == SumAll(st.taken, mu) && e.owned == OwnedAll(st.taken)
  {
    CoveredIsValid(st.history, t0, st.t, gap);
    ExtractedArea(st.history, t0, st.t, gap, mu);
  }

  lemma {:induction false} RunMovesForward(t0: real, ops: seq<Op>, gap: real)
    ensures t0 <= Run(t0, ops, gap).t
    ensures Run(t0, ops, gap).taken != [] ==> t0 < Run(t0, ops, gap).t
  {
    if ops != [] {
      RunMovesForward(t0, ops[..|ops| - 1], gap);
    }
  }

  lemma CoveredIsValid(h: seq<ImuSample>, a: real, b: real, gap: real)
    requires Increasing(h) && Covers(h, a) && Covers(h, b) && a < b && gap > 0.0 && GapsOver(h, a, b, gap)
    ensures Extracted(h, a, b, gap).reason == Valid
  {
    var l, r := LastAtMost(h, a), FirstAtLeast(h, b);
    LastAtMostIs(h, a);
    CoveredIndex(h, b);
    FirstAtLeastIs(h, b);
    assert l < |h|;
    forall i: nat | l <= i < r
      ensures GapFits(h, i, gap)
    {
    }
    LateReasonsAreDead(h, a, b, gap);
  }

  // ---------- the object ----------

  lemma LastAtMostUnique(h: seq<ImuSample>, t: real, l: nat)
    requires Increasing(h) && l <= |h| && (l < |h| ==> h[l].stamp <= t)
    requires forall i :: 0 <= i < |h| && (l == |h| || l < i) ==> h[i].stamp > t
    ensures LastAtMost(h, t) == l
  {
    LastAtMostIs(h, t);
  }

  lemma {:induction false} OnlyUpTo(h: seq<ImuSample>, r: nat, start: real, end: real)
    requires r < |h| && forall i :: r < i < |h| ==> h[i].stamp > end
    ensures Owned(h, start, end) == Owned(h[..r + 1], start, end)
    decreases |h|
  {
    if r + 1 < |h| {
      OnlyUpTo(h[..|h| - 1], r, start, end);
      assert h[..|h| - 1][..r + 1] == h[..r + 1];
    } else {
      assert h[..r + 1] == h;
    }
  }

  lemma InnerNext(h: seq<ImuSample>, left: nat, right: nat, i: nat, start: real, end: real)
    requires Increasing(h) && Brackets(h, left, right, start, end) && left < i <= right
    ensures h[left + 1..i] + (if start < h[i].stamp < end then [h[i]] else []) ==
            h[left + 1..if i < right then i + 1 else right]
  {
  }

  lemma OwnedNext(h: seq<ImuSample>, i: nat, start: real, end: real)
    requires i < |h|
    ensures Owned(h[..i + 1], start, end) == Owned(h[..i], start, end) + if start < h[i].stamp <= end then 1 else 0
  {
    assert h[..i + 1][..i] == h[..i];
  }

  lemma OneMoreKnot(knots: seq<ImuSample>, i: nat)
    requires i + 1 < |knots|
    ensures Segments(knots[..i + 2]) == Segments(knots[..i + 1]) + [SegmentOf(knots[i], knots[i + 1])]
  {
    assert knots[..i + 2][..i + 1] == knots[..i + 1];
  }

  lemma SquaresAppend(segments: seq<Segment>, g: Segment)
    ensures SumSquares(segments + [g]) == SumSquares(segments) + g.dt * g.dt
  {
    assert (segments + [g])[..|segments|] == segments;
  }

  class ImuIntervalBuffer {
    var samples: seq<ImuSample>
    var duplicateCount: nat
    var nonMonotonicCount: nat

    constructor ()
      ensures Ordered() && samples == []
    {
      samples, duplicateCount, nonMonotonicCount := [], 0, 0;
    }

    predicate Ordered()
      reads this
    {
      Increasing(samples)
    }

    method Push(s: ImuSample) returns (ok: bool)
      requires Ordered()
      modifies this
      ensures Ordered() && ok == Accepts(old(samples), s)
      ensures samples == if ok then old(samples) + [s] else old(samples)
    {
      if s.stamp <= 0.0 {
        return false;
      }
      if samples != [] {
        if s.stamp == samples[|samples| - 1].stamp {
          duplicateCount := duplicateCount + 1;
          return false;
        }
        if s.stamp < samples[|samples| - 1].stamp {
          nonMonotonicCount := nonMonotonicCount + 1;
          return false;
        }
      }
      samples := samples + [s];
      return true;
    }

    // The last sample not after the start and the first one not before the end.
    method FindBracket(start: real, end: real) returns (left: nat, right: nat)
      requires Ordered() && start < end
      ensures left == LastAtMost(samples, start) && right == FirstAtLeast(samples, end)
    {
      left, right := |samples|, |samples|;
      var i := 0;
      while i < |samples| && right == |samples|
        invariant i <= |samples| && left <= |samples| && (left < |samples| ==> samples[left].stamp <= start)
        invariant forall j :: 0 <= j < i ==> samples[j].stamp < end
        invariant forall j :: 0 <= j < i && (left == |samples| || left < j) ==> samples[j].stamp > start
        invariant right == |samples| || (right == i && samples[i].stamp >= end)
        invariant left == |samples| || left < i
        decreases |samples| - i, right == |samples|
      {
        if samples[i].stamp <= start {
          left := i;
        }
        if samples[i].stamp >= end {
          right := i;
        } else {
          i := i + 1;
        }
      }
      FirstAtLeastIs(samples, end);
      if right < |samples| {
        FirstAtLeastUnique(samples, end, right);
      }
      LastAtMostUnique(samples, start, left);
    }

    method CheckGaps(left: nat, right: nat, gap: real) returns (ok: bool)
      requires right < |samples|
      ensures ok == GapsFit(samples, left, right, gap)
    {
      var i := left;
      while i < right
        invariant left <= i && (left <= right ==> i <= right)
        invariant forall j: nat :: left <= j < i && j < right ==> GapFits(samples, j, gap)
      {
        var width := samples[i + 1].stamp - samples[i].stamp;
        if width <= 0.0 || width > gap {
          assert !GapFits(samples, i, gap);
          return false;
        }
        i := i + 1;
      }
      return true;
    }

    // The samples strictly inside the interval, and how many samples it owns.
    method CollectInner(left: nat, right: nat, start: real, end: real) returns (inner: seq<ImuSample>, owned: nat)
      requires Ordered() && Brackets(samples, left, right, start, end)
      ensures inner == samples[left + 1..right] && owned == Owned(samples[..right + 1], start, end)
    {
      inner, owned := [], 0;
      OldAreNotOwned(samples[..left + 1], start, end);
      var i := left + 1;
      while i <= right
        invariant left + 1 <= i <= right + 1
        invariant inner == samples[left + 1..if i <= right then i else right]
        invariant owned == Owned(samples[..i], start, end)
      {
        OwnedNext(samples, i, start, end);
        InnerNext(samples, left, right, i, start, end);
        if samples[i].stamp > start && samples[i].stamp < end {
          inner := inner + [samples[i]];
        }
        if samples[i].stamp > start && samples[i].stamp <= end {
          owned := owned + 1;
        }
        i := i + 1;
      }
    }

    // The knots of the interval: both ends and the samples inside.
    method CollectKnots(left: nat, right: nat, start: real, end: real) returns (knots: seq<ImuSample>, owned: nat)
      requires Ordered() && Brackets(samples, left, right, start, end)
      ensures knots == Knots(samples, left, right, start, end) && owned == Owned(samples, start, end)
    {
      var inner;
      inner, owned := CollectInner(left, right, start, end);
      knots := [Interpolate(samples[left], samples[left + 1], start)] + inner;
      knots := knots + [Interpolate(samples[right - 1], samples[right], end)];
      OnlyUpTo(samples, right, start, end);
    }

    // The segments between the knots, up to the first one that is not positive.
    method BuildSegments(knots: seq<ImuSample>)
        returns (positive: bool, segments: seq<Segment>, squares: real, durations: seq<real>)
      requires knots != []
      ensures positive <==> AllPositive(Segments(knots))
      ensures positive ==>
                segments == Segments(knots) && squares == SumSquares(segments) && durations == Durations(segments)
    {
      DurationIs(knots);
      segments, squares, durations := [], 0.0, [];
      var i := 0;
      while i + 1 < |knots|
        invariant i < |knots| && segments == Segments(knots[..i + 1]) && squares == SumSquares(segments)
        invariant durations == Durations(segments) && AllPositive(segments)
      {
        var g := SegmentOf(knots[i], knots[i + 1]);
        if g.dt <= 0.0 {
          assert Segments(knots)[i].dt <= 0.0;
          return false, segments, squares, durations;
        }
        OneMoreKnot(knots, i);
        SquaresAppend(segments, g);
        squares := squares + g.dt * g.dt;
        segments := segments + [g];
        durations := durations + [g.dt];
        i := i + 1;
      }
      assert knots[..i + 1] == knots;
      positive := true;
    }

    method Prune(end: real)
      modifies this`samples
      ensures samples == Pruned(old(samples), end)
    {
      while |samples| > 1 && samples[1].stamp <= end
        invariant Pruned(samples, end) == Pruned(old(samples), end)
      {
        samples := samples[1..];
      }
    }

    method Extract(start: real, end: real, gap: real) returns (e: Interval)
      requires Ordered()
      modifies this`samples
      ensures Ordered() && e == Extracted(old(samples), start, end, gap)
      ensures samples == if e.reason == Valid then Pruned(old(samples), end) else old(samples)
    {
      if end <= start {
        return Refused(start, end, InvalidInterval);
      }
      if gap <= 0.0 || |samples| < 2 {
        return Refused(start, end, InsufficientImu);
      }
      var left, right := FindBracket(start, end);
      if left == |samples| || right == |samples| || left >= right {
        return Refused(start, end, NotBracketed);
      }
      var ok := CheckGaps(left, right, gap);
      if !ok {
        return Refused(start, end, GapTooLarge);
      }
      LastAtMostIs(samples, start);
      FirstAtLeastIs(samples, end);
      e := CutOut(left, right, start, end);
    }

    // The interval between these samples; the samples before its end are dropped if it is valid.
    method CutOut(left: nat, right: nat, start: real, end: real) returns (e: Interval)
      requires Ordered() && Brackets(samples, left, right, start, end)
      modifies this`samples
      ensures Ordered()
      ensures e == Cutout(Knots(old(samples), left, right, start, end), start, end, Owned(old(samples), start, end))
      ensures samples == if e.reason == Valid then Pruned(old(samples), end) else old(samples)
    {
      var knots, owned := CollectKnots(left, right, start, end);
      var positive, segments, squares, durations := BuildSegments(knots);
      if !positive {
        return Refused(start, end, NonPositiveSegment);
      }
      if segments == [] {
        return Refused(start, end, EmptyInterval);
      }
      var median := Median(durations);
      if !Closes(segments, end - start) {
        return Refused(start, end, ClosureFailed);
      }
      ghost var k := PruningKeepsBracket(samples, end);
      Prune(end);
      return Interval(Valid, start, end, squares, median, owned, segments);
    }
  }
}
