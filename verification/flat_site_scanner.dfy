/**
 * The flat landing-site scanner (`PQS_Scanner` and `PQS_Scanner_CDOS`).
 *
 * The scanner scores points around the target by terrain unevenness and lets
 * a derivative-free 2-D optimizer look for the flattest reachable point,
 * spending at most `points_per_frame` optimizer iterations per frame. The
 * optimizer itself is not modelled: it is seen from outside as its current
 * best point and the sequence of best points its remaining iterations will
 * report. Terrain queries are functions supplied by the caller.
 */
module FlatSiteScanner {
  import opened Numeric
  import opened Optional

  /** Mathf.Rad2Deg. */
  const Rad2Deg: real := 57.29578

  /** An unevenness score: finite, or +infinity for a point on water. */
  datatype Unevenness = Finite(value: real) | Infinite

  /** `a <= b` on scores, with +infinity above every finite score. */
  predicate AtMost(a: Unevenness, b: Unevenness)
  {
    b.Infinite? || (a.Finite? && a.value <= b.value)
  }

  /** A surface position: latitude, longitude (degrees) and altitude. */
  datatype Coordinates = Coordinates(lat: real, lon: real, alt: real)

  /** The terrain queries the scanner makes of the planet. */
  datatype Terrain = Terrain(surfaceAlt: (real, real) -> real, onWater: (real, real) -> bool)

  /** Coordinates.SurfacePoint: the point on the surface at (lat, lon). */
  function SurfacePoint(t: Terrain, lat: real, lon: real): (p: Coordinates)
    ensures p.lat == lat && p.lon == lon && p.alt == t.surfaceAlt(lat, lon)
  {
    Coordinates(lat, lon, t.surfaceAlt(lat, lon))
  }

  /** A (lat, lon) pair. */
  datatype LatLon = LatLon(lat: real, lon: real)

  /** The four corners of the square of half-side `half` around (lat, lon), in the order they are probed. */
  function Corners(lat: real, lon: real, half: real): (cs: seq<LatLon>)
    ensures |cs| == 4
  {
    [LatLon(lat - half, lon - half), LatLon(lat + half, lon - half),
     LatLon(lat + half, lon + half), LatLon(lat - half, lon + half)]
  }

  /** altitude_delta: height difference between the surface at a corner and the centre. */
  function AltitudeDelta(t: Terrain, c: LatLon, centreAlt: real): real
  {
    Abs(t.surfaceAlt(c.lat, c.lon) - centreAlt)
  }

  /** The corner height differences around (lat, lon), in probing order. */
  function CornerDeltas(t: Terrain, lat: real, lon: real, half: real): (ds: seq<real>)
    ensures |ds| == 4
    ensures forall i :: 0 <= i < 4 ==> ds[i] == AltitudeDelta(t, Corners(lat, lon, half)[i], t.surfaceAlt(lat, lon))
  {
    var cs := Corners(lat, lon, half);
    var alt := t.surfaceAlt(lat, lon);
    [AltitudeDelta(t, cs[0], alt), AltitudeDelta(t, cs[1], alt), AltitudeDelta(t, cs[2], alt), AltitudeDelta(t, cs[3], alt)]
  }

  /**
   * The score of a dry point is at least each corner's own height
   * difference per unit size: one uneven corner is enough to make the
   * point uneven.
   */
  lemma UnevennessBoundsEachCorner(t: Terrain, half: real, d: real, lat: real, lon: real, i: int)
    requires d > 0.0 && !t.onWater(lat, lon) && 0 <= i < 4
    ensures CalculateUnevenness(t, half, d, lat, lon).value >= CornerDeltas(t, lat, lon, half)[i] / d
  {
    var ds := CornerDeltas(t, lat, lon, half);
    CornerDeltasLevel(t, lat, lon, half);
    SumOfFour(ds);
    PerUnit(Sum(ds), d);
    DivideMonotone(Sum(ds), ds[i], d);
  }

  /** A corner difference is zero exactly when the corner is level with the centre. */
  lemma AltitudeDeltaZero(t: Terrain, c: LatLon, centreAlt: real)
    ensures AltitudeDelta(t, c, centreAlt) >= 0.0
    ensures AltitudeDelta(t, c, centreAlt) == 0.0 <==> t.surfaceAlt(c.lat, c.lon) == centreAlt
  {
  }

  /** Sum of the four corner differences. */
  function Sum(ds: seq<real>): real
    requires |ds| == 4
  {
    ds[0] + ds[1] + ds[2] + ds[3]
  }

  /** Four non-negative terms: the sum bounds each of them and is zero exactly when all are. */
  lemma SumOfFour(ds: seq<real>)
    requires |ds| == 4
    requires forall i :: 0 <= i < 4 ==> ds[i] >= 0.0
    ensures Sum(ds) >= 0.0
    ensures forall i :: 0 <= i < 4 ==> Sum(ds) >= ds[i]
    ensures Sum(ds) == 0.0 <==> forall i :: 0 <= i < 4 ==> ds[i] == 0.0
  {
  }

  /** All four corners of the square around (lat, lon) are level with its centre. */
  ghost predicate Level(t: Terrain, lat: real, lon: real, half: real)
  {
    forall i :: 0 <= i < 4 ==>
      t.surfaceAlt(Corners(lat, lon, half)[i].lat, Corners(lat, lon, half)[i].lon) == t.surfaceAlt(lat, lon)
  }

  /**
   * calculate_unevenness: +infinity on water; otherwise the summed height
   * differences between the four corners of a vessel-sized square and its
   * centre, per unit of vessel size `d`. The score is never negative, is
   * zero exactly when all four corners are level with the centre, and is at
   * least each corner's own difference per unit size.
   */
  function CalculateUnevenness(t: Terrain, half: real, d: real, lat: real, lon: real): (u: Unevenness)
    requires d > 0.0
    ensures u.Infinite? <==> t.onWater(lat, lon)
    ensures u.Finite? ==> u.value >= 0.0
    ensures u.Finite? ==> (u.value == 0.0 <==> Level(t, lat, lon, half))
  {
    if t.onWater(lat, lon) then Infinite
    else
      var ds := CornerDeltas(t, lat, lon, half);
      CornerDeltasLevel(t, lat, lon, half);
      SumOfFour(ds);
      PerUnit(Sum(ds), d);
      Finite(Sum(ds) / d)
  }

  /** Dividing by a positive size keeps the order. */
  lemma DivideMonotone(a: real, b: real, d: real)
    requires d > 0.0 && a >= b
    ensures a / d >= b / d
  {
    assert a / d - b / d == (a - b) / d;
  }

  /** Dividing a non-negative sum by a positive size keeps its sign, zero and scale. */
  lemma PerUnit(sum: real, d: real)
    requires d > 0.0 && sum >= 0.0
    ensures sum / d >= 0.0 && sum / d * d == sum
    ensures sum / d == 0.0 <==> sum == 0.0
  {
  }

  /** The corner differences are non-negative and all zero exactly when the square is level. */
  lemma CornerDeltasLevel(t: Terrain, lat: real, lon: real, half: real)
    ensures forall i :: 0 <= i < 4 ==> CornerDeltas(t, lat, lon, half)[i] >= 0.0
    ensures (forall i :: 0 <= i < 4 ==> CornerDeltas(t, lat, lon, half)[i] == 0.0) <==> Level(t, lat, lon, half)
  {
    var cs := Corners(lat, lon, half);
    forall i | 0 <= i < 4
      ensures CornerDeltas(t, lat, lon, half)[i] >= 0.0
      ensures CornerDeltas(t, lat, lon, half)[i] == 0.0 <==> t.surfaceAlt(cs[i].lat, cs[i].lon) == t.surfaceAlt(lat, lon)
    {
      AltitudeDeltaZero(t, cs[i], t.surfaceAlt(lat, lon));
    }
  }

  // ---------------------------------------------------------------------
  // Optimizer as seen by the scanner
  // ---------------------------------------------------------------------

  /** A candidate site (x = latitude, y = longitude) with its score z. */
  datatype Point3 = Point3(x: real, y: real, z: Unevenness)

  /**
   * The optimisation in progress: the current best point and the best
   * points that each remaining iteration will report.
   */
  datatype Optimizer = Optimizer(best: Point3, pending: seq<Point3>)

  /** One successful MoveNext of the optimisation. */
  function Iterate(o: Optimizer): (n: Optimizer)
    requires o.pending != []
    ensures |n.pending| == |o.pending| - 1
    ensures [n.best] + n.pending == o.pending
  {
    Optimizer(o.pending[0], o.pending[1..])
  }

  // ---------------------------------------------------------------------
  // Scanner
  // ---------------------------------------------------------------------

  /**
   * PQS_Scanner_CDOS: the score bound for progress reporting, the allowed
   * distance from the start point (negative: unlimited), the start point,
   * the frame budget, the vessel-size step in degrees and its half, the
   * published result, and the optimisation (absent when idle).
   */
  datatype Scanner = Scanner(maxUnevenness: real, maxDist: real, start: Coordinates,
                             pointsPerFrame: int, delta: real, half: real,
                             bestUnevenness: Unevenness, flatRegion: Option<Coordinates>,
                             optimizer: Option<Optimizer>)

  /** A freshly constructed scanner. */
  function NewScanner(maxUnevenness: real): (sc: Scanner)
    ensures Idle(sc) && sc.flatRegion == None && sc.maxDist < 0.0
    ensures sc.maxUnevenness == maxUnevenness
  {
    Scanner(maxUnevenness, -1.0, Coordinates(0.0, 0.0, 0.0), 0, 0.0, 0.0, Finite(0.0), None, None)
  }

  /** The scanner has no optimisation to run. */
  predicate Idle(sc: Scanner)
  {
    sc.optimizer.None?
  }

  /** Reset: idle, nothing found, best score double.MaxValue; the settings are kept. */
  function Reset(sc: Scanner): (r: Scanner)
    ensures Idle(r) && r.flatRegion == None && r.bestUnevenness == Finite(MaxDouble)
    ensures r.maxUnevenness == sc.maxUnevenness && r.maxDist == sc.maxDist
    ensures r.start == sc.start && r.pointsPerFrame == sc.pointsPerFrame
  {
    sc.(bestUnevenness := Finite(MaxDouble), flatRegion := None, optimizer := None)
  }

  /**
   * Start: reset, remember the start point and the frame budget, derive the
   * probe step from the vessel size `d` and the body radius, and begin the
   * optimisation `run` around the start point.
   */
  function Start(sc: Scanner, pos: Coordinates, pointsPerFrame: int, d: real, bodyRadius: real,
                 run: Optimizer): (r: Scanner)
    requires bodyRadius > 0.0
    ensures !Idle(r) && r.optimizer == Some(run)
    ensures r.flatRegion == None && r.bestUnevenness == Finite(MaxDouble)
    ensures r.start == pos && r.pointsPerFrame == pointsPerFrame
    ensures r.half * 2.0 == r.delta && r.delta * bodyRadius == d * Rad2Deg
    ensures r.maxUnevenness == sc.maxUnevenness && r.maxDist == sc.maxDist
  {
    var delta := d / bodyRadius * Rad2Deg;
    Reset(sc).(start := pos, pointsPerFrame := pointsPerFrame, delta := delta, half := delta / 2.0,
               optimizer := Some(run))
  }

  /**
   * good_point: with a negative distance limit every point is acceptable,
   * otherwise only points strictly closer to the start than the limit.
   * `distance` is the great-circle distance from the start point.
   */
  function GoodPoint(sc: Scanner, distance: (real, real) -> real, lat: real, lon: real): (ok: bool)
    ensures sc.maxDist < 0.0 ==> ok
    ensures ok && sc.maxDist >= 0.0 ==> distance(lat, lon) < sc.maxDist
  {
    sc.maxDist < 0.0 || distance(lat, lon) < sc.maxDist
  }

  /** Widening a non-negative distance limit never rejects a point that was acceptable. */
  lemma GoodPointWidens(sc: Scanner, distance: (real, real) -> real, lat: real, lon: real, wider: real)
    requires 0.0 <= sc.maxDist <= wider
    requires GoodPoint(sc, distance, lat, lon)
    ensures GoodPoint(sc.(maxDist := wider), distance, lat, lon)
  {
  }

  /**
   * Progress: 0 while idle, otherwise the ratio of the score bound to the
   * optimizer's best score, capped at 1 (a zero score gives +infinity
   * before the cap, an infinite score gives 0).
   */
  function Progress(sc: Scanner): (p: real)
    requires sc.maxUnevenness > 0.0
    ensures Idle(sc) ==> p == 0.0
    ensures p <= 1.0
    ensures (!Idle(sc) && AtMost(Finite(0.0), sc.optimizer.value.best.z)
             && AtMost(sc.optimizer.value.best.z, Finite(sc.maxUnevenness))) ==> p == 1.0
    ensures !Idle(sc) && AtMost(Finite(0.0), sc.optimizer.value.best.z) ==> p >= 0.0
  {
    match sc.optimizer
    case None => 0.0
    case Some(o) =>
      match o.best.z
      case Infinite => 0.0
      case Finite(v) =>
        if v > 0.0 then
          assert v <= sc.maxUnevenness ==> sc.maxUnevenness / v >= 1.0 by {
            if v <= sc.maxUnevenness {
              assert sc.maxUnevenness / v * v == sc.maxUnevenness;
            }
          }
          Min(sc.maxUnevenness / v, 1.0)
        else if v == 0.0 then 1.0
        else Min(sc.maxUnevenness / v, 1.0)
  }

  /** A better (lower, non-negative) best score never shows less progress. */
  lemma ProgressMonotone(sc: Scanner, a: Unevenness, b: Unevenness)
    requires sc.maxUnevenness > 0.0 && sc.optimizer.Some?
    requires AtMost(Finite(0.0), a) && AtMost(a, b)
    ensures var o := sc.optimizer.value;
            Progress(sc.(optimizer := Some(o.(best := o.best.(z := a)))))
              >= Progress(sc.(optimizer := Some(o.(best := o.best.(z := b)))))
  {
    var m := sc.maxUnevenness;
    if a.Finite? && b.Finite? && a.value > 0.0 {
      var x, y := a.value, b.value;
      assert m / x >= m / y by {
        var q := m / y;
        assert q >= 0.0;
        assert q * x <= q * y;
        assert q * y == m;
        assert q == q * x / x;
        DivideMonotone(m, q * x, x);
      }
    }
  }

  /** Publish the optimizer's best point as the flat region and its score as the best unevenness. */
  function Publish(t: Terrain, sc: Scanner, o: Optimizer): (r: Scanner)
    ensures r.flatRegion == Some(SurfacePoint(t, o.best.x, o.best.y))
    ensures r.bestUnevenness == o.best.z && r.optimizer == Some(o)
  {
    sc.(flatRegion := Some(SurfacePoint(t, o.best.x, o.best.y)), bestUnevenness := o.best.z,
        optimizer := Some(o))
  }

  /** Iterations a frame with `budget` remaining moves can take from `available` pending ones. */
  function Taken(budget: int, available: nat): (k: nat)
    ensures k <= available
    ensures budget <= 0 ==> k == 0
    ensures budget > 0 ==> k == budget || k == available
  {
    if budget <= 0 then 0 else if budget <= available then budget else available
  }

  /** Taking one iteration first leaves a budget one smaller over the rest. */
  lemma TakenShift(xs: seq<Point3>, budget: int)
    requires xs != [] && budget > 0
    ensures Taken(budget, |xs|) == Taken(budget - 1, |xs| - 1) + 1
    ensures xs[1..][Taken(budget - 1, |xs| - 1)..] == xs[Taken(budget, |xs|)..]
    ensures Taken(budget - 1, |xs| - 1) > 0 ==> xs[1..][Taken(budget - 1, |xs| - 1) - 1] == xs[Taken(budget, |xs|) - 1]
  {
  }

  /**
   * The loop of Scan from iteration p on: iterate while the frame budget
   * lasts; if the optimisation runs out first, publish its best point and
   * report false.
   */
  function ScanFrom(t: Terrain, sc: Scanner, o: Optimizer, p: int): (r: (Scanner, bool))
    ensures var k := Taken(sc.pointsPerFrame - p, |o.pending|);
            && r.0.optimizer.Some?
            && r.0.optimizer.value.pending == o.pending[k..]
            && r.0.optimizer.value.best == (if k == 0 then o.best else o.pending[k - 1])
    ensures r.1 <==> |o.pending| >= sc.pointsPerFrame - p
    ensures r.1 ==> r.0 == sc.(optimizer := r.0.optimizer)
    ensures !r.1 ==> r.0 == Publish(t, sc, r.0.optimizer.value) && r.0.optimizer.value.pending == []
    decreases sc.pointsPerFrame - p
  {
    if p >= sc.pointsPerFrame then (sc.(optimizer := Some(o)), true)
    else if o.pending == [] then (Publish(t, sc, o), false)
    else
      TakenShift(o.pending, sc.pointsPerFrame - p);
      ScanFrom(t, sc, Iterate(o), p + 1)
  }

  /**
   * Scan: an idle scanner does nothing and reports false; otherwise up to
   * points_per_frame optimizer iterations run. True means the frame budget
   * ran out with the optimisation still going; false means it finished, and
   * then FlatRegion and BestUnevennes hold its best point.
   */
  function Scan(t: Terrain, sc: Scanner): (r: (Scanner, bool))
    ensures Idle(sc) ==> r == (sc, false)
    ensures !Idle(sc) ==>
              && !Idle(r.0)
              && |r.0.optimizer.value.pending| + Taken(sc.pointsPerFrame, |sc.optimizer.value.pending|)
                   == |sc.optimizer.value.pending|
              && (r.1 <==> |sc.optimizer.value.pending| >= sc.pointsPerFrame)
    ensures !Idle(sc) && !r.1 ==>
              && r.0.flatRegion == Some(SurfacePoint(t, r.0.optimizer.value.best.x, r.0.optimizer.value.best.y))
              && r.0.bestUnevenness == r.0.optimizer.value.best.z
    ensures r.1 ==> r.0.flatRegion == sc.flatRegion && r.0.bestUnevenness == sc.bestUnevenness
    ensures r.0.maxUnevenness == sc.maxUnevenness && r.0.maxDist == sc.maxDist
    ensures r.0.start == sc.start && r.0.pointsPerFrame == sc.pointsPerFrame
  {
    match sc.optimizer
    case None => (sc, false)
    case Some(o) => ScanFrom(t, sc, o, 0)
  }

  /**
   * Once a scan has finished, scanning again changes nothing and keeps
   * reporting false: the exhausted optimisation republishes the same best
   * point.
   */
  lemma ScanFinishedIsStable(t: Terrain, sc: Scanner)
    requires !Idle(sc) && !Scan(t, sc).1
    ensures Scan(t, Scan(t, sc).0) == (Scan(t, sc).0, false)
  {
    var o := sc.optimizer.value;
    var r := ScanFrom(t, sc, o, 0);
    assert sc.pointsPerFrame > 0;
    var o' := r.0.optimizer.value;
    assert o'.pending == [];
    assert ScanFrom(t, r.0, o', 0) == (Publish(t, r.0, o'), false);
  }

  /**
   * A frame over an optimisation with at least points_per_frame pending
   * iterations leaves the published result alone and consumes exactly
   * points_per_frame of them.
   */
  lemma ScanSpendsWholeBudget(t: Terrain, sc: Scanner)
    requires !Idle(sc) && sc.pointsPerFrame >= 0
    requires |sc.optimizer.value.pending| >= sc.pointsPerFrame
    ensures Scan(t, sc).1
    ensures Scan(t, sc).0.optimizer.value.pending == sc.optimizer.value.pending[sc.pointsPerFrame..]
  {
  }
}
