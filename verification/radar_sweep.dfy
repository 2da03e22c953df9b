/**
 * Terrain points, single rays and three-ray sweeps of the terrain radar.
 *
 * A sweep casts three parallel rays (left, centre, right of the vessel) at
 * the current view angle and classifies what they hit: an obstacle seen by
 * one side ray only calls for a horizontal (side-step) manoeuvre, anything
 * else for a vertical one. Ray casting and its trigonometry are not
 * modelled: each ray arrives as a hit flag, a hit distance, the height of
 * the hit point below the vessel, and the hit point.
 */
module Sweeps {
  import opened Numeric

  // ---------------------------------------------------------------------
  // TerrainPoint
  // ---------------------------------------------------------------------

  /** A surface point with its altitude; altitude double.MinValue marks "no point". */
  datatype TerrainPoint = TerrainPoint(altitude: real, position: Vec3)

  /** TerrainPoint.Valid. */
  predicate ValidPoint(p: TerrainPoint)
  {
    p.altitude != MinDouble
  }

  /** TerrainPoint.Reset: the invalid point at the origin. */
  const NoPoint: TerrainPoint := TerrainPoint(MinDouble, Zero)

  /** The value of an unset TerrainPoint field (C# struct default): altitude 0, which is valid. */
  const DefaultPoint: TerrainPoint := TerrainPoint(0.0, Zero)

  /**
   * TerrainPoint.Update: the surface height under `position`, raised to sea
   * level on a body with an ocean.
   */
  function SurfacePointAt(position: Vec3, surfaceHeight: real, ocean: bool): (p: TerrainPoint)
    ensures p.position == position
    ensures ocean ==> p.altitude >= 0.0
    ensures p.altitude >= surfaceHeight
    ensures p.altitude == surfaceHeight || (ocean && p.altitude == 0.0)
  {
    TerrainPoint(if ocean && surfaceHeight < 0.0 then 0.0 else surfaceHeight, position)
  }

  /**
   * TerrainPoint.DistanceTo: the distance from `pos` to a valid point, -1
   * for an invalid one. `norm` is the vector magnitude.
   */
  function DistanceTo(p: TerrainPoint, pos: Vec3, norm: Vec3 -> real): (d: real)
    ensures !ValidPoint(p) ==> d == -1.0
    ensures ValidPoint(p) ==> d == norm(Sub(p.position, pos))
    ensures (forall v :: norm(v) >= 0.0) ==> (d < 0.0 <==> !ValidPoint(p))
  {
    if ValidPoint(p) then norm(Sub(p.position, pos)) else -1.0
  }

  function Sub(a: Vec3, b: Vec3): Vec3
  {
    Vec3(a.x - b.x, a.y - b.y, a.z - b.z)
  }

  /** TerrainPoint operator <: lower altitude. */
  predicate PointBelow(p1: TerrainPoint, p2: TerrainPoint)
  {
    p1.altitude < p2.altitude
  }

  /** TerrainPoint operator >: higher altitude. */
  predicate PointAbove(p1: TerrainPoint, p2: TerrainPoint)
  {
    p1.altitude > p2.altitude
  }

  /**
   * The two TerrainPoint operators are converses of each other and the
   * invalid point lies below every valid one.
   */
  lemma PointOrderIsByAltitude(p1: TerrainPoint, p2: TerrainPoint, q: TerrainPoint)
    ensures PointBelow(p1, p2) <==> PointAbove(p2, p1)
    ensures !(PointBelow(p1, p2) && PointBelow(p2, p1))
    ensures !PointBelow(p1, p2) && !PointBelow(p2, p1) <==> p1.altitude == p2.altitude
    ensures ValidPoint(q) && q.altitude > MinDouble ==> PointBelow(NoPoint, q)
  {
  }

  /**
   * TerrainPoint.BeforeDestination: the point is valid and lies before the
   * destination; `ahead` is the outcome of the vector test against the
   * destination and the velocity.
   */
  predicate BeforeDestination(p: TerrainPoint, ahead: bool)
  {
    ValidPoint(p) && ahead
  }

  // ---------------------------------------------------------------------
  // Ray
  // ---------------------------------------------------------------------

  /**
   * The outcome of one sphere cast: whether it hit, and for a hit its
   * distance, the height of the hit point below the vessel along the view
   * direction, and the hit point.
   */
  datatype Ray = Ray(valid: bool, hitDistance: real, hitDrop: real, hitPoint: Vec3)

  /** Ray.Reset. */
  const NoRay: Ray := Ray(false, 0.0, 0.0, Zero)

  /** Ray.Distance: the hit distance, float.MaxValue without a hit. */
  function RayDistance(r: Ray): real
  {
    if r.valid then r.hitDistance else MaxFloat
  }

  /** Ray.Altitude after ClaculateAltitude: the drop of the hit point, float.MaxValue without a hit. */
  function RayAltitude(r: Ray): real
  {
    if r.valid then r.hitDrop else MaxFloat
  }

  /** Ray.CollisionPoint: the hit point, the origin without a hit. */
  function CollisionPoint(r: Ray): Vec3
  {
    if r.valid then r.hitPoint else Zero
  }

  // ---------------------------------------------------------------------
  // Sweep
  // ---------------------------------------------------------------------

  datatype ManeuverType = NoManeuver | Horizontal | Vertical

  /** A three-ray sweep: whether anything was hit, the highest hit altitude, the manoeuvre and the obstacle. */
  datatype Sweep = Sweep(valid: bool, altitude: real, maneuver: ManeuverType, obstacle: TerrainPoint,
                         l: Ray, c: Ray, r: Ray)

  /** Sweep.Reset: nothing hit, altitude float.MinValue, no manoeuvre, no obstacle. */
  const NoSweep: Sweep := Sweep(false, MinFloat, NoManeuver, NoPoint, NoRay, NoRay, NoRay)

  function Min3(a: real, b: real, c: real): (m: real)
    ensures m <= a && m <= b && m <= c
    ensures m == a || m == b || m == c
  {
    Min(a, Min(b, c))
  }

  /** The ray whose hit becomes the obstacle, and the manoeuvre it calls for; None when no branch applies. */
  datatype Pick = Pick(ray: Ray, maneuver: ManeuverType) | Unknown

  /**
   * The classification of Sweep.Cast: one side ray alone (whatever the
   * centre ray saw) means a horizontal manoeuvre; otherwise a centre hit
   * means vertical, and two side hits without the centre mean vertical with
   * the nearer side ray.
   */
  function Classify(l: Ray, c: Ray, r: Ray): (p: Pick)
    ensures p.Unknown? <==> !l.valid && !c.valid && !r.valid
    ensures p.Pick? ==> p.ray.valid
    ensures p.Pick? && p.maneuver == Horizontal <==> l.valid != r.valid
    ensures p.Pick? && p.maneuver == Vertical <==> (l.valid == r.valid && (c.valid || l.valid))
  {
    if l.valid && !r.valid then Pick(l, Horizontal)
    else if !l.valid && r.valid then Pick(r, Horizontal)
    else if c.valid then Pick(c, Vertical)
    else if l.valid && r.valid then Pick(if RayDistance(r) < RayDistance(l) then r else l, Vertical)
    else Unknown
  }

  /**
   * Sweep.Cast: without the vessel's transform the sweep stays reset.
   * Otherwise it is valid iff any ray hit; the altitude is the vessel's
   * altitude less the smallest drop; the obstacle is the classified ray's
   * hit point at that altitude. In the Unknown branch the obstacle and the
   * manoeuvre stay reset.
   */
  function Cast(hasTransform: bool, vesselAltitude: real, l: Ray, c: Ray, r: Ray): (s: Sweep)
    ensures !hasTransform ==> s == NoSweep
    ensures hasTransform ==> (s.valid <==> l.valid || c.valid || r.valid)
    ensures hasTransform && s.valid ==>
              && s.altitude == vesselAltitude - Min3(RayAltitude(l), RayAltitude(c), RayAltitude(r))
              && s.obstacle.altitude == s.altitude
              && s.maneuver != NoManeuver
    ensures !s.valid ==> s.altitude == MinFloat && s.maneuver == NoManeuver && s.obstacle == NoPoint
  {
    if !hasTransform then NoSweep
    else
      var valid := l.valid || c.valid || r.valid;
      var base := NoSweep.(valid := valid, l := l, c := c, r := r);
      if !valid then base
      else
        var alt := vesselAltitude - Min3(RayAltitude(l), RayAltitude(c), RayAltitude(r));
        match Classify(l, c, r)
        case Unknown => assert false; base.(altitude := alt)
        case Pick(ray, m) => base.(altitude := alt, maneuver := m, obstacle := TerrainPoint(alt, CollisionPoint(ray)))
  }

  /**
   * The three manoeuvre rules of a cast sweep, stated against the rays:
   * exactly one side ray hitting gives Horizontal with that ray's point,
   * a centre hit with both or no side rays gives Vertical with the centre
   * point, two side hits without the centre give Vertical with the nearer
   * side point.
   */
  lemma CastManeuverRules(vesselAltitude: real, l: Ray, c: Ray, r: Ray)
    ensures var s := Cast(true, vesselAltitude, l, c, r);
            && (l.valid && !r.valid ==> s.maneuver == Horizontal && s.obstacle.position == l.hitPoint)
            && (!l.valid && r.valid ==> s.maneuver == Horizontal && s.obstacle.position == r.hitPoint)
            && (l.valid == r.valid && c.valid ==> s.maneuver == Vertical && s.obstacle.position == c.hitPoint)
            && (l.valid && r.valid && !c.valid ==>
                  s.maneuver == Vertical &&
                  s.obstacle.position == (if r.hitDistance < l.hitDistance then r.hitPoint else l.hitPoint))
  {
  }

  /**
   * The sweep's altitude is at least the vessel altitude less the drop of
   * every hitting ray: it is the altitude of the highest hit.
   */
  lemma CastAltitudeIsHighestHit(vesselAltitude: real, l: Ray, c: Ray, r: Ray)
    requires l.valid || c.valid || r.valid
    ensures var s := Cast(true, vesselAltitude, l, c, r);
            && (l.valid ==> s.altitude >= vesselAltitude - l.hitDrop)
            && (c.valid ==> s.altitude >= vesselAltitude - c.hitDrop)
            && (r.valid ==> s.altitude >= vesselAltitude - r.hitDrop)
  {
  }

  /**
   * A valid sweep has a valid obstacle whenever its altitude is within
   * single-precision range, which double.MinValue is not.
   */
  lemma CastObstacleValid(vesselAltitude: real, l: Ray, c: Ray, r: Ray)
    requires l.valid || c.valid || r.valid
    requires Cast(true, vesselAltitude, l, c, r).altitude >= MinFloat
    ensures ValidPoint(Cast(true, vesselAltitude, l, c, r).obstacle)
  {
  }

  /** Sweep operator <: s1 is invalid, or both are valid and s1 is lower. */
  predicate SweepBelow(s1: Sweep, s2: Sweep)
  {
    !s1.valid || (s2.valid && s1.altitude < s2.altitude)
  }

  /** Sweep operator >: s2 is invalid, or both are valid and s1 is higher. */
  predicate SweepAbove(s1: Sweep, s2: Sweep)
  {
    !s2.valid || (s1.valid && s1.altitude > s2.altitude)
  }

  /**
   * The sweep operators are converses, an invalid sweep is below (and
   * under >, not above) every sweep, and between valid sweeps the order is
   * by altitude.
   */
  lemma SweepOrder(s1: Sweep, s2: Sweep)
    ensures SweepBelow(s1, s2) <==> SweepAbove(s2, s1)
    ensures !s1.valid ==> SweepBelow(s1, s2) && SweepAbove(s2, s1)
    ensures s1.valid && s2.valid ==> (SweepBelow(s1, s2) <==> s1.altitude < s2.altitude)
    ensures s1.valid && !s2.valid ==> !SweepBelow(s1, s2)
  {
  }
}
