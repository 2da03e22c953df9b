/**
 * The look-ahead altimeter of the radar (`Radar.PQS_Altimeter`).
 *
 * Every radar tick the altimeter probes the terrain height at a point
 * `LookAheadTime` seconds ahead along the view direction. A probe that comes
 * within the vessel's height of its altitude steps the look-ahead back and
 * halves the step, homing in on the nearest high ground; the search restarts
 * (rewinds) once it looks too far ahead or the step gets too small. The
 * highest point found since the last rewind is published as the obstacle.
 */
module Altimeter {
  import opened Numeric
  import opened Sweeps

  /** Smallest look-ahead step before the search restarts. */
  const MinStep: real := 0.1

  /** PQS_Altimeter: look-ahead time and step, the last probe, the best probe since the last rewind, the obstacle. */
  datatype Altimeter = Altimeter(lookAheadTime: real, lookAheadTimeDelta: real,
                                 curPoint: TerrainPoint, bestPoint: TerrainPoint, obstacle: TerrainPoint)

  /** A freshly constructed altimeter: look-ahead 1 s with step 1 s and unset (altitude 0) points. */
  const NewAltimeter: Altimeter := Altimeter(1.0, 1.0, DefaultPoint, DefaultPoint, DefaultPoint)

  /**
   * The terrain as the altimeter sees it: the probed position and the raw
   * surface height for a given look-ahead time, and whether the body has an
   * ocean.
   */
  datatype Probe = Probe(positionAt: real -> Vec3, heightAt: real -> real, ocean: bool)

  /** rewind: look-ahead and step back to 1 s, best point forgotten. */
  function Rewind(a: Altimeter): (r: Altimeter)
    ensures r.lookAheadTime == 1.0 && r.lookAheadTimeDelta == 1.0 && !ValidPoint(r.bestPoint)
    ensures r.obstacle == a.obstacle && r.curPoint == a.curPoint
  {
    a.(lookAheadTime := 1.0, lookAheadTimeDelta := 1.0, bestPoint := NoPoint)
  }

  /** The search restarts this tick: it looks beyond the limit or its step is below MinStep. */
  predicate Restarts(a: Altimeter, limit: real)
  {
    a.lookAheadTime > limit || a.lookAheadTimeDelta < MinStep
  }

  /**
   * The restart at the start of a probe: past the limit the best point
   * becomes the obstacle unconditionally; with too small a step only a valid
   * best point does. Otherwise nothing changes.
   */
  function Restart(a: Altimeter, limit: real): (r: Altimeter)
    ensures !Restarts(a, limit) ==> r == a
    ensures Restarts(a, limit) ==> r.lookAheadTime == 1.0 && r.lookAheadTimeDelta == 1.0 && !ValidPoint(r.bestPoint)
    ensures a.lookAheadTime > limit ==> r.obstacle == a.bestPoint
    ensures a.lookAheadTime <= limit && a.lookAheadTimeDelta < MinStep ==>
              r.obstacle == (if ValidPoint(a.bestPoint) then a.bestPoint else a.obstacle)
  {
    if a.lookAheadTime > limit then Rewind(a.(obstacle := a.bestPoint))
    else if a.lookAheadTimeDelta < MinStep then
      Rewind(if ValidPoint(a.bestPoint) then a.(obstacle := a.bestPoint) else a)
    else a
  }

  /**
   * ProbeHeightAhead: without terrain data nothing happens. Otherwise
   * restart if due, probe the surface at the current look-ahead time, keep
   * the higher of the probe and the best point, raise the obstacle to the
   * best point if that is higher, step back and halve the step when the
   * probe is within `h` of the vessel's altitude, and advance by the step.
   */
  function ProbeHeightAhead(a: Altimeter, limit: real, hasTerrain: bool, probe: Probe,
                            vesselAltitude: real, h: real): (r: Altimeter)
    ensures !hasTerrain ==> r == a
    ensures hasTerrain ==>
              var s := Restart(a, limit);
              && r.curPoint == SurfacePointAt(probe.positionAt(s.lookAheadTime), probe.heightAt(s.lookAheadTime), probe.ocean)
              && r.bestPoint.altitude >= s.bestPoint.altitude && r.bestPoint.altitude >= r.curPoint.altitude
              && (r.bestPoint == s.bestPoint || r.bestPoint == r.curPoint)
              && r.obstacle.altitude >= s.obstacle.altitude && r.obstacle.altitude >= r.bestPoint.altitude
              && (r.obstacle == s.obstacle || r.obstacle == r.bestPoint)
    ensures hasTerrain ==>
              var s := Restart(a, limit);
              if vesselAltitude - r.curPoint.altitude <= h then
                r.lookAheadTimeDelta * 2.0 == s.lookAheadTimeDelta
                && r.lookAheadTime == s.lookAheadTime - r.lookAheadTimeDelta
              else
                r.lookAheadTimeDelta == s.lookAheadTimeDelta
                && r.lookAheadTime == s.lookAheadTime + s.lookAheadTimeDelta
  {
    if !hasTerrain then a
    else
      var s := Restart(a, limit);
      var cur := SurfacePointAt(probe.positionAt(s.lookAheadTime), probe.heightAt(s.lookAheadTime), probe.ocean);
      var best := if PointAbove(cur, s.bestPoint) then cur else s.bestPoint;
      var obstacle := if PointAbove(best, s.obstacle) then best else s.obstacle;
      var close := vesselAltitude - cur.altitude <= h;
      var t := if close then s.lookAheadTime - s.lookAheadTimeDelta else s.lookAheadTime;
      var dt := if close then s.lookAheadTimeDelta / 2.0 else s.lookAheadTimeDelta;
      Altimeter(t + dt, dt, cur, best, obstacle)
  }

  /**
   * The look-ahead bookkeeping invariant: the step is no smaller than
   * MinStep/2 and no larger than 1 s, and the look-ahead time is at least
   * one step and at most 1 s past the larger of the limit and the 1 s a
   * restart goes back to.
   */
  predicate Bookkeeping(a: Altimeter, limit: real)
  {
    && MinStep / 2.0 <= a.lookAheadTimeDelta <= 1.0
    && a.lookAheadTimeDelta <= a.lookAheadTime <= Max(limit, 1.0) + 1.0
  }

  /** A fresh altimeter satisfies the invariant. */
  lemma NewAltimeterBookkeeping(limit: real)
    ensures Bookkeeping(NewAltimeter, limit)
  {
  }

  /** Every probe preserves the invariant; the look-ahead time in particular never drops to zero. */
  lemma ProbeKeepsBookkeeping(a: Altimeter, limit: real, hasTerrain: bool, probe: Probe,
                              vesselAltitude: real, h: real)
    requires Bookkeeping(a, limit)
    ensures Bookkeeping(ProbeHeightAhead(a, limit, hasTerrain, probe, vesselAltitude, h), limit)
    ensures ProbeHeightAhead(a, limit, hasTerrain, probe, vesselAltitude, h).lookAheadTime > 0.0
  {
  }

  /**
   * Between restarts the obstacle only rises, and only to the best point:
   * a probe that does not restart leaves the obstacle alone unless the new
   * best point is strictly higher.
   */
  lemma ObstacleOnlyRisesBetweenRestarts(a: Altimeter, limit: real, probe: Probe,
                                         vesselAltitude: real, h: real)
    requires !Restarts(a, limit)
    ensures var r := ProbeHeightAhead(a, limit, true, probe, vesselAltitude, h);
            && r.obstacle.altitude >= a.obstacle.altitude
            && (r.obstacle == a.obstacle || (r.obstacle == r.bestPoint && r.bestPoint.altitude > a.obstacle.altitude))
            && r.bestPoint.altitude >= a.bestPoint.altitude
  {
  }

  /**
   * After a restart the probe looks 1 s ahead, and a probe at any altitude
   * above double.MinValue becomes the new best point.
   */
  lemma RestartProbesOneSecondAhead(a: Altimeter, limit: real, probe: Probe, vesselAltitude: real, h: real)
    requires Restarts(a, limit)
    ensures var r := ProbeHeightAhead(a, limit, true, probe, vesselAltitude, h);
            && r.curPoint == SurfacePointAt(probe.positionAt(1.0), probe.heightAt(1.0), probe.ocean)
            && (r.curPoint.altitude > MinDouble ==> r.bestPoint == r.curPoint)
  {
  }
}
