/** Densifying a sparse tracker track: extra points on the chords between samples, except across
    real gaps. Coordinates are exact reals, times integer milliseconds. */
module TrackDensify {

  datatype Point = Point(x: real, y: real, t: int)

  /** The `s`-th point inserted between `a` and `b`. */
  function Between(a: Point, b: Point, step: int, s: int): Point
    requires a.t != b.t
  {
    var f := (s * step) as real / (b.t - a.t) as real;
    Point(a.x + (b.x - a.x) * f, a.y + (b.y - a.y) * f, a.t + s * step)
  }

  predicate Sparse(a: Point, b: Point, step: int, maxGap: int) { step < b.t - a.t <= maxGap }

  /** The first `count` of the points inserted between `a` and `b`. */
  function Chord(a: Point, b: Point, step: int, count: nat): seq<Point>
    requires a.t != b.t
  {
    if count == 0 then [] else Chord(a, b, step, count - 1) + [Between(a, b, step, count)]
  }

  function Inserted(a: Point, b: Point, step: int, maxGap: int): seq<Point>
    requires step > 0
  {
    if Sparse(a, b, step, maxGap) then Chord(a, b, step, (b.t - a.t) / step - 1) else []
  }

  /** What the output gains with the sample `b` after `a`. */
  function Segment(a: Point, b: Point, step: int, maxGap: int): seq<Point>
    requires step > 0
  {
    Inserted(a, b, step, maxGap) + [b]
  }

  function Densified(points: seq<Point>, step: int, maxGap: int): seq<Point>
    requires step > 0
  {
    if |points| < 2 then points
    else
      var n := |points|;
      Densified(points[..n - 1], step, maxGap) + Segment(points[n - 2], points[n - 1], step, maxGap)
  }

  function Interpolated(points: seq<Point>, step: int, maxGap: int): seq<Point> {
    if step <= 0 then points else Densified(points, step, maxGap)
  }

  method InterpolateSparse(points: seq<Point>, step: int, maxGap: int) returns (out: seq<Point>)
    ensures out == Interpolated(points, step, maxGap)
  {
    if |points| < 2 || step <= 0 {
      return points;
    }
    out := [];
    for i := 0 to |points| - 1
      invariant out + [points[i]] == Densified(points[..i + 1], step, maxGap)
    {
      var p, q := points[i], points[i + 1];
      assert points[..i + 2][..i + 1] == points[..i + 1];
      out := out + [p];
      ghost var soFar := out;
      var dt := q.t - p.t;
      if dt <= step || dt > maxGap {
        continue;
      }
      var steps := dt / step;
      QuotientPositive(dt, step);
      for s := 1 to steps
        invariant out == soFar + Chord(p, q, step, s - 1)
      {
        out := out + [Between(p, q, step, s)];
      }
    }
    assert points[..|points|] == points;
    out := out + [points[|points| - 1]];
  }

  /** Without a positive step the track is left as it is; with one it is densified. */
  lemma InterpolatedWhen(points: seq<Point>, step: int, maxGap: int)
    ensures step <= 0 ==> Interpolated(points, step, maxGap) == points
    ensures step > 0 ==> Interpolated(points, step, maxGap) == Densified(points, step, maxGap)
    ensures |points| < 2 ==> Interpolated(points, step, maxGap) == points
  {
  }

  lemma QuotientPositive(dt: int, step: int)
    requires 0 < step < dt
    ensures 1 <= dt / step
    ensures (dt / step) * step <= dt < (dt / step) * step + step
  {
  }

  // ---------- the samples survive, in order ----------

  predicate Subsequence(a: seq<Point>, b: seq<Point>)
    decreases |b|
  {
    a == []
    || (b != []
        && (Subsequence(a, b[..|b| - 1])
            || (a[|a| - 1] == b[|b| - 1] && Subsequence(a[..|a| - 1], b[..|b| - 1]))))
  }

  lemma {:induction false} LongerHolds(a: seq<Point>, b: seq<Point>, more: seq<Point>)
    requires Subsequence(a, b)
    ensures Subsequence(a, b + more)
    decreases |more|
  {
    if more == [] {
      assert b + more == b;
    } else {
      var all := b + more;
      assert all[..|all| - 1] == b + more[..|more| - 1];
      LongerHolds(a, b, more[..|more| - 1]);
    }
  }

  /** Every sample is in the output, in its place. */
  lemma {:induction false} SamplesSurvive(points: seq<Point>, step: int, maxGap: int)
    requires step > 0
    ensures Subsequence(points, Densified(points, step, maxGap))
  {
    if |points| >= 2 {
      var n := |points|;
      SamplesSurvive(points[..n - 1], step, maxGap);
      var front := Densified(points[..n - 1], step, maxGap);
      var more := Inserted(points[n - 2], points[n - 1], step, maxGap);
      LongerHolds(points[..n - 1], front, more);
      var out := Densified(points, step, maxGap);
      assert out == front + more + [points[n - 1]];
      assert out[..|out| - 1] == front + more;
    } else if |points| == 1 {
      assert points[..0] == [];
    }
  }

  // ---------- where the new points lie ----------

  predicate OnChord(a: Point, b: Point, q: Point) {
    && a.t < q.t < b.t
    && (q.x - a.x) * (b.t - a.t) as real == (b.x - a.x) * (q.t - a.t) as real
    && (q.y - a.y) * (b.t - a.t) as real == (b.y - a.y) * (q.t - a.t) as real
  }

  lemma Scaled(d: real, part: real, whole: real)
    requires whole != 0.0
    ensures (d * (part / whole)) * whole == d * part
  {
  }

  lemma StepsWithin(dt: int, step: int, s: int)
    requires 0 < step < dt && 1 <= s <= dt / step - 1
    ensures 0 < s * step <= dt - step
  {
    QuotientPositive(dt, step);
    assert s * step <= (dt / step - 1) * step;
  }

  lemma BetweenIsOnChord(a: Point, b: Point, step: int, s: int)
    requires 0 < step < b.t - a.t && 1 <= s <= (b.t - a.t) / step - 1
    ensures OnChord(a, b, Between(a, b, step, s))
  {
    StepsWithin(b.t - a.t, step, s);
    Scaled(b.x - a.x, (s * step) as real, (b.t - a.t) as real);
    Scaled(b.y - a.y, (s * step) as real, (b.t - a.t) as real);
  }

  lemma {:induction false} ChordHolds(a: Point, b: Point, step: int, count: nat, q: Point)
    requires 0 < step < b.t - a.t && count <= (b.t - a.t) / step - 1
    requires q in Chord(a, b, step, count)
    ensures OnChord(a, b, q)
  {
    if q in Chord(a, b, step, count - 1) {
      ChordHolds(a, b, step, count - 1, q);
    } else {
      BetweenIsOnChord(a, b, step, count);
    }
  }

  predicate OnSomeChord(points: seq<Point>, q: Point) {
    exists i :: 0 < i < |points| && OnChord(points[i - 1], points[i], q)
  }

  /** Every other point of the output lies on the chord between two neighbouring samples, at the
      place its time gives it. */
  lemma {:induction false} NewPointsLieOnChords(points: seq<Point>, step: int, maxGap: int, q: Point)
    requires step > 0 && q in Densified(points, step, maxGap)
    ensures q in points || OnSomeChord(points, q)
  {
    if |points| >= 2 {
      var n := |points|;
      var front := points[..n - 1];
      if q in Densified(front, step, maxGap) {
        NewPointsLieOnChords(front, step, maxGap, q);
        if OnSomeChord(front, q) {
          var i :| 0 < i < |front| && OnChord(front[i - 1], front[i], q);
          assert OnChord(points[i - 1], points[i], q);
        }
      } else if q in Inserted(points[n - 2], points[n - 1], step, maxGap) {
        ChordHolds(points[n - 2], points[n - 1], step, (points[n - 1].t - points[n - 2].t) / step - 1, q);
        assert OnChord(points[n - 2], points[n - 1], q);
      }
    }
  }

  // ---------- gaps ----------

  /** What holds of every two neighbours in a track. */
  predicate Neighbours(points: seq<Point>, fits: (Point, Point) -> bool) {
    forall i :: 0 < i < |points| ==> fits(points[i - 1], points[i])
  }

  function Ordered(): (Point, Point) -> bool { (a: Point, b: Point) => a.t <= b.t }

  function WellSpaced(step: int, maxGap: int): (Point, Point) -> bool {
    (a: Point, b: Point) => b.t - a.t < 2 * step || b.t - a.t > maxGap
  }

  /** Inserted points are one step apart. */
  lemma {:induction false} ChordSpacing(a: Point, b: Point, step: int, count: nat)
    requires step > 0 && a.t != b.t
    ensures |Chord(a, b, step, count)| == count
    ensures forall i :: 0 <= i < count ==> Chord(a, b, step, count)[i].t == a.t + (i + 1) * step
  {
    if count > 0 {
      ChordSpacing(a, b, step, count - 1);
    }
  }

  /** What holds of neighbours between one and two steps apart. */
  ghost predicate CloseFit(step: int, fits: (Point, Point) -> bool) {
    forall p: Point, q: Point :: step <= q.t - p.t < 2 * step ==> fits(p, q)
  }

  lemma SegmentFits(a: Point, b: Point, step: int, maxGap: int, fits: (Point, Point) -> bool)
    requires step > 0 && CloseFit(step, fits)
    requires Sparse(a, b, step, maxGap) || fits(a, b)
    ensures Neighbours([a] + Segment(a, b, step, maxGap), fits)
  {
    var all := [a] + Segment(a, b, step, maxGap);
    if Sparse(a, b, step, maxGap) {
      var count := (b.t - a.t) / step - 1;
      QuotientPositive(b.t - a.t, step);
      ChordSpacing(a, b, step, count);
      assert all == [a] + Chord(a, b, step, count) + [b];
      forall i | 0 < i < |all|
        ensures fits(all[i - 1], all[i])
      {
        SegmentGap(a, b, step, i);
      }
    }
  }

  lemma SegmentGap(a: Point, b: Point, step: int, i: int)
    requires 0 < step < b.t - a.t
    requires 0 < i <= (b.t - a.t) / step
    ensures
      var count := (b.t - a.t) / step - 1;
      var all := [a] + Chord(a, b, step, count) + [b];
      && |all| == count + 2 && step <= all[i].t - all[i - 1].t < 2 * step
  {
    var count := (b.t - a.t) / step - 1;
    ChordSpacing(a, b, step, count);
    QuotientPositive(b.t - a.t, step);
    var all := [a] + Chord(a, b, step, count) + [b];
    assert all[i - 1].t == a.t + (i - 1) * step;
    if i <= count {
      assert all[i].t == a.t + i * step;
    } else {
      assert i == count + 1;
      assert (count + 1) * step == count * step + step;
    }
  }

  lemma LastIsKept(points: seq<Point>, step: int, maxGap: int)
    requires step > 0 && points != []
    ensures
      var out := Densified(points, step, maxGap);
      out != [] && out[|out| - 1] == points[|points| - 1]
  {
  }

  lemma JoinSegment(front: seq<Point>, segment: seq<Point>, fits: (Point, Point) -> bool)
    requires front != [] && segment != []
    requires Neighbours(front, fits) && Neighbours([front[|front| - 1]] + segment, fits)
    ensures Neighbours(front + segment, fits)
  {
    var all, tail := front + segment, [front[|front| - 1]] + segment;
    forall i | 0 < i < |all|
      ensures fits(all[i - 1], all[i])
    {
      if i >= |front| {
        var k := i - |front| + 1;
        assert all[i] == tail[k] && all[i - 1] == tail[k - 1];
      }
    }
  }

  predicate SamplesFit(points: seq<Point>, step: int, maxGap: int, fits: (Point, Point) -> bool) {
    forall i :: 0 < i < |points| ==> Sparse(points[i - 1], points[i], step, maxGap) || fits(points[i - 1], points[i])
  }

  lemma {:induction false} DensifiedFits(points: seq<Point>, step: int, maxGap: int, fits: (Point, Point) -> bool)
    requires step > 0 && CloseFit(step, fits) && SamplesFit(points, step, maxGap, fits)
    ensures Neighbours(Densified(points, step, maxGap), fits)
  {
    if |points| >= 2 {
      var n := |points|;
      var a, b := points[n - 2], points[n - 1];
      DensifiedFits(points[..n - 1], step, maxGap, fits);
      LastIsKept(points[..n - 1], step, maxGap);
      SegmentFits(a, b, step, maxGap, fits);
      JoinSegment(Densified(points[..n - 1], step, maxGap), Segment(a, b, step, maxGap), fits);
    }
  }

  /** After densifying, every gap is below two steps or a real one. */
  lemma OutputIsWellSpaced(points: seq<Point>, step: int, maxGap: int)
    requires step > 0
    ensures Neighbours(Densified(points, step, maxGap), WellSpaced(step, maxGap))
  {
    DensifiedFits(points, step, maxGap, WellSpaced(step, maxGap));
  }

  /** A track in order of time stays so. */
  lemma OrderIsKept(points: seq<Point>, step: int, maxGap: int)
    requires step > 0 && Neighbours(points, Ordered())
    ensures Neighbours(Densified(points, step, maxGap), Ordered())
  {
    DensifiedFits(points, step, maxGap, Ordered());
  }

  lemma {:induction false} WellSpacedStays(points: seq<Point>, step: int, maxGap: int)
    requires step > 0 && Neighbours(points, WellSpaced(step, maxGap))
    ensures Densified(points, step, maxGap) == points
  {
    if |points| >= 2 {
      var n := |points|;
      var a, b := points[n - 2], points[n - 1];
      WellSpacedStays(points[..n - 1], step, maxGap);
      assert WellSpaced(step, maxGap)(points[n - 2], points[n - 1]);
      if Sparse(a, b, step, maxGap) {
        QuotientIsOne(b.t - a.t, step);
      }
      assert points[..n - 1] + [b] == points;
    }
  }

  lemma QuotientIsOne(dt: int, step: int)
    requires 0 < step < dt < 2 * step
    ensures dt / step == 1
  {
  }

  /** Densifying twice is densifying once, for any step, positive or not. */
  lemma DensifyingIsIdempotent(points: seq<Point>, step: int, maxGap: int)
    ensures Interpolated(Interpolated(points, step, maxGap), step, maxGap) == Interpolated(points, step, maxGap)
  {
    if step > 0 {
      OutputIsWellSpaced(points, step, maxGap);
      WellSpacedStays(Densified(points, step, maxGap), step, maxGap);
    }
  }

  // ---------- real gaps ----------

  function RealGaps(points: seq<Point>, maxGap: int): nat {
    if |points| < 2 then 0
    else
      RealGaps(points[..|points| - 1], maxGap)
      + if points[|points| - 1].t - points[|points| - 2].t > maxGap then 1 else 0
  }

  lemma {:induction false} GapsJoin(a: seq<Point>, b: seq<Point>, maxGap: int)
    requires a != []
    ensures RealGaps(a + b, maxGap) == RealGaps(a, maxGap) + RealGaps([a[|a| - 1]] + b, maxGap)
    decreases |b|
  {
    if b == [] {
      assert a + b == a;
    } else {
      var front := b[..|b| - 1];
      GapsJoin(a, front, maxGap);
      var long, short := a + b, [a[|a| - 1]] + b;
      assert long[..|long| - 1] == a + front && short[..|short| - 1] == [a[|a| - 1]] + front;
      assert long[|long| - 2] == short[|short| - 2];
    }
  }

  lemma {:induction false} NoGaps(points: seq<Point>, maxGap: int)
    requires forall i :: 0 < i < |points| ==> points[i].t - points[i - 1].t <= maxGap
    ensures RealGaps(points, maxGap) == 0
  {
    if |points| >= 2 {
      NoGaps(points[..|points| - 1], maxGap);
    }
  }

  function Within(maxGap: int): (Point, Point) -> bool {
    (a: Point, b: Point) => b.t - a.t <= maxGap
  }

  lemma SegmentGaps(a: Point, b: Point, step: int, maxGap: int)
    requires step > 0
    ensures RealGaps([a] + Segment(a, b, step, maxGap), maxGap) == if b.t - a.t > maxGap then 1 else 0
  {
    var all := [a] + Segment(a, b, step, maxGap);
    if Sparse(a, b, step, maxGap) && b.t - a.t >= 2 * step {
      SegmentFits(a, b, step, maxGap, Within(maxGap));
      assert forall i :: 0 < i < |all| ==> Within(maxGap)(all[i - 1], all[i]);
      NoGaps(all, maxGap);
    } else {
      if Sparse(a, b, step, maxGap) {
        QuotientIsOne(b.t - a.t, step);
      }
      assert all == [a, b];
      assert all[..1] == [a];
    }
  }

  /** Densifying neither bridges a real gap nor makes one: there are as many as before. */
  lemma {:induction false} RealGapsSurvive(points: seq<Point>, step: int, maxGap: int)
    requires step > 0
    ensures RealGaps(Densified(points, step, maxGap), maxGap) == RealGaps(points, maxGap)
  {
    if |points| >= 2 {
      var n := |points|;
      var a, b := points[n - 2], points[n - 1];
      RealGapsSurvive(points[..n - 1], step, maxGap);
      LastIsKept(points[..n - 1], step, maxGap);
      GapsJoin(Densified(points[..n - 1], step, maxGap), Segment(a, b, step, maxGap), maxGap);
      SegmentGaps(a, b, step, maxGap);
    }
  }
}
