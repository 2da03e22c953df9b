/**
 * The terrain radar's scan controller (`Radar.rewind`, `Radar.reset` and
 * the scan part of `Radar.Update`).
 *
 * Each tick the radar casts one sweep at the current view angle, which moves
 * from `-UpViewAngle` down to `DownViewAngle` in steps of `AngleDelta`. A
 * direct (vertical) hit before the destination steps the view back and
 * halves the step to home in on the top of the obstacle; the highest sweep
 * of a pass is kept as `BestHit` and the highest valid one seen as
 * `DetectedHit`. A side (horizontal) hit queues a side-step manoeuvre
 * instead. A pass ends (rewinds) past `DownViewAngle`, when the step is
 * below `MinAngleDelta`, or after too many refined steps.
 */
module Radar {
  import opened Numeric
  import opened Optional
  import opened Sweeps
  import opened Altimeter

  /** Radar.Config, after Init. */
  datatype Config = Config(upViewAngle: real, downViewAngle: real, minAngleDelta: real,
                           maxLittleSteps: real, lookAheadTime: real, angleDelta: real)

  /**
   * Radar.Config.Init: both view angles capped at 80 degrees and the base
   * step set to the whole view range divided among the rays.
   */
  function InitConfig(upViewAngle: real, downViewAngle: real, minAngleDelta: real, maxLittleSteps: real,
                      lookAheadTime: real, numRays: int): (cfg: Config)
    requires numRays != 0
    ensures cfg.upViewAngle <= 80.0 && cfg.downViewAngle <= 80.0
    ensures cfg.upViewAngle == upViewAngle || cfg.upViewAngle == 80.0
    ensures cfg.downViewAngle == downViewAngle || cfg.downViewAngle == 80.0
    ensures cfg.angleDelta * (numRays as real) == cfg.upViewAngle + cfg.downViewAngle
  {
    var up := ClampH(upViewAngle, 80.0);
    var down := ClampH(downViewAngle, 80.0);
    Config(up, down, minAngleDelta, maxLittleSteps, lookAheadTime, (up + down) / (numRays as real))
  }

  /** The configuration the autopilot ships with. */
  const DefaultConfig: Config := InitConfig(15.0, 15.0, 0.1, 5.0, 20.0, 30)

  /** The shipped configuration has a positive base step of one degree. */
  lemma DefaultConfigStep()
    ensures DefaultConfig.angleDelta == 1.0
  {
  }

  /**
   * The radar's scan state: view angle and step, refined-step count, whether
   * the previous sweep was a direct hit, the three sweeps, the side
   * manoeuvre, the collision figures `reset` clears, and the altimeter.
   */
  datatype RadarState = RadarState(
    viewAngle: real, angleDelta: real, littleSteps: int, lastHitValid: bool,
    curHit: Sweep, bestHit: Sweep, detectedHit: Sweep,
    sideCollision: bool, sideManeuver: Vec3,
    collisionSpeed: real, distanceAhead: real, timeAhead: real, altitudeAhead: real,
    altimeter: Altimeter)

  /**
   * rewind: clear the current and best sweeps, restart the view at
   * -UpViewAngle with the base step, forget the last hit; the manoeuvre
   * timer zeroes the side manoeuvre when its period has elapsed and the pass
   * saw no side collision; the side-collision flag is cleared.
   */
  function Rewind(rd: RadarState, cfg: Config, maneuverTimerElapsed: bool): (r: RadarState)
    ensures r.viewAngle == -cfg.upViewAngle && r.angleDelta == cfg.angleDelta
    ensures r.littleSteps == 0 && !r.lastHitValid && !r.sideCollision
    ensures r.curHit == NoSweep && r.bestHit == NoSweep && r.detectedHit == rd.detectedHit
    ensures r.sideManeuver == (if !rd.sideCollision && maneuverTimerElapsed then Zero else rd.sideManeuver)
  {
    rd.(curHit := NoSweep, bestHit := NoSweep, viewAngle := -cfg.upViewAngle, angleDelta := cfg.angleDelta,
        littleSteps := 0, lastHitValid := false,
        sideManeuver := if !rd.sideCollision && maneuverTimerElapsed then Zero else rd.sideManeuver,
        sideCollision := false)
  }

  /**
   * reset: rewind, forget the detected sweep, and clear the collision
   * figures (speed, distance and time ahead -1, altitude ahead float.MinValue).
   */
  function Reset(rd: RadarState, cfg: Config, maneuverTimerElapsed: bool): (r: RadarState)
    ensures r.detectedHit == NoSweep && r.bestHit == NoSweep && !r.lastHitValid
    ensures r.viewAngle == -cfg.upViewAngle && r.angleDelta == cfg.angleDelta && r.littleSteps == 0
    ensures r.collisionSpeed == -1.0 && r.distanceAhead == -1.0 && r.timeAhead == -1.0
    ensures r.altitudeAhead == MinFloat
  {
    Rewind(rd, cfg, maneuverTimerElapsed).(detectedHit := NoSweep, collisionSpeed := -1.0,
                                            distanceAhead := -1.0, timeAhead := -1.0, altitudeAhead := MinFloat)
  }

  /** The radar as Init leaves it: a reset of the constructed object. */
  function InitialState(cfg: Config): (r: RadarState)
    ensures r.angleDelta == cfg.angleDelta && r.littleSteps == 0
    ensures !r.bestHit.valid && !r.detectedHit.valid
  {
    var constructed := RadarState(0.0, 0.0, 0, false, NoSweep.(altitude := 0.0), NoSweep.(altitude := 0.0),
                                  NoSweep.(altitude := 0.0), false, Zero, -1.0, 0.0, 0.0, 0.0, NewAltimeter);
    Reset(constructed, cfg, false)
  }

  /** The pass is over: the view has gone past DownViewAngle. */
  predicate PastDownView(rd: RadarState, cfg: Config)
  {
    rd.viewAngle > cfg.downViewAngle
  }

  /** The pass has refined too much: the step is below MinAngleDelta or there were too many refined steps. */
  predicate OverRefined(rd: RadarState, cfg: Config)
  {
    rd.angleDelta < cfg.minAngleDelta || (rd.littleSteps as real) > cfg.maxLittleSteps
  }

  /**
   * The boundary checks at the start of Update: past the down view, a valid
   * best sweep is published as detected and the pass rewinds, otherwise the
   * radar resets; an over-refined pass publishes a valid best sweep and
   * rewinds.
   */
  function CheckBoundaries(rd: RadarState, cfg: Config, maneuverTimerElapsed: bool): (r: RadarState)
    ensures PastDownView(rd, cfg) && rd.bestHit.valid ==>
              r == Rewind(rd.(detectedHit := rd.bestHit), cfg, maneuverTimerElapsed)
    ensures PastDownView(rd, cfg) && !rd.bestHit.valid ==> r == Reset(rd, cfg, maneuverTimerElapsed)
    ensures !PastDownView(rd, cfg) && OverRefined(rd, cfg) ==>
              r == Rewind(if rd.bestHit.valid then rd.(detectedHit := rd.bestHit) else rd, cfg, maneuverTimerElapsed)
    ensures !PastDownView(rd, cfg) && !OverRefined(rd, cfg) ==> r == rd
  {
    if PastDownView(rd, cfg) then
      if rd.bestHit.valid then Rewind(rd.(detectedHit := rd.bestHit), cfg, maneuverTimerElapsed)
      else Reset(rd, cfg, maneuverTimerElapsed)
    else if OverRefined(rd, cfg) then
      Rewind(if rd.bestHit.valid then rd.(detectedHit := rd.bestHit) else rd, cfg, maneuverTimerElapsed)
    else rd
  }

  /**
   * The sensor readings of one tick: whether the manoeuvre timer's period
   * has elapsed, the three rays of the sweep, whether the vessel transform
   * exists, the vessel's altitude, the destination test for the sweep's
   * obstacle, whether horizontal avoidance is enabled, the altitude above
   * which a side hit is a collision, the avoiding manoeuvre the collision
   * prevention system proposes (if any), and the altimeter's inputs.
   */
  datatype Sensors = Sensors(
    maneuverTimerElapsed: bool, hasTransform: bool, vesselAltitude: real,
    l: Ray, c: Ray, r: Ray, obstacleAhead: bool, horizontalMode: bool, altThreshold: real,
    avoidance: Option<Vec3>, hasTerrain: bool, probe: Probe, vesselHeight: real)

  /** Replace the side manoeuvre when the new one points the same way or is larger. */
  function MergeSideManeuver(side: Vec3, m: Vec3): (r: Vec3)
    ensures r == side || r == m
    ensures r == m <==> (Dot(side, m) > 0.0 || SqrMagnitude(side) < SqrMagnitude(m) || side == m)
  {
    if Dot(side, m) > 0.0 || SqrMagnitude(side) < SqrMagnitude(m) then m else side
  }

  /** The cast sweep is a direct hit: its obstacle lies before the destination and no side-step applies. */
  predicate DirectHit(cur: Sweep, s: Sensors)
  {
    BeforeDestination(cur.obstacle, s.obstacleAhead) && !(cur.maneuver == Horizontal && s.horizontalMode)
  }

  /** The cast sweep calls for a side-step. */
  predicate SideHit(cur: Sweep, s: Sensors)
  {
    BeforeDestination(cur.obstacle, s.obstacleAhead) && cur.maneuver == Horizontal && s.horizontalMode
  }

  /**
   * The hit check of Update on the state after the boundary checks, with
   * the new sweep in place. A side hit clears the last-hit flag and, above
   * the collision threshold, flags a side collision and merges the proposed
   * manoeuvre. A direct hit keeps the higher of the current and best sweep,
   * publishes a higher valid best sweep, and steps the view back (two steps
   * after a hit, otherwise one step followed by halving). A missed sweep
   * halves the step if the previous sweep hit.
   */
  function CheckHit(b: RadarState, s: Sensors): (r: RadarState)
  {
    var cur := b.curHit;
    if SideHit(cur, s) then
      if cur.altitude > s.altThreshold then
        var side := match s.avoidance
                    case None => b.sideManeuver
                    case Some(m) => MergeSideManeuver(b.sideManeuver, m);
        b.(lastHitValid := false, sideCollision := true, sideManeuver := side)
      else b.(lastHitValid := false)
    else if DirectHit(cur, s) then
      var best := if SweepAbove(cur, b.bestHit) then cur else b.bestHit;
      var detected := if best.valid && SweepAbove(best, b.detectedHit) then best else b.detectedHit;
      if b.lastHitValid then
        b.(bestHit := best, detectedHit := detected, viewAngle := b.viewAngle - 2.0 * b.angleDelta)
      else
        b.(bestHit := best, detectedHit := detected, lastHitValid := true,
           viewAngle := b.viewAngle - b.angleDelta, angleDelta := b.angleDelta / 2.0)
    else if !cur.valid then
      b.(angleDelta := if b.lastHitValid then b.angleDelta / 2.0 else b.angleDelta, lastHitValid := false)
    else b
  }

  /** The state after the boundary checks and the new sweep, before the hit check. */
  function Prepared(rd: RadarState, cfg: Config, s: Sensors): (b: RadarState)
    ensures b.curHit == Cast(s.hasTransform, s.vesselAltitude, s.l, s.c, s.r)
  {
    CheckBoundaries(rd, cfg, s.maneuverTimerElapsed).(curHit := Cast(s.hasTransform, s.vesselAltitude, s.l, s.c, s.r))
  }

  /**
   * The scan part of one Update tick: boundary checks, the sweep, the hit
   * check, the refined-step count, the altimeter probe, and the step of the
   * view angle for the next tick.
   */
  function Update(rd: RadarState, cfg: Config, s: Sensors): (r: RadarState)
    ensures var h := CheckHit(Prepared(rd, cfg, s), s);
            && r.angleDelta == h.angleDelta && r.viewAngle == h.viewAngle + h.angleDelta
            && r.littleSteps == h.littleSteps + (if h.angleDelta < cfg.angleDelta then 1 else 0)
            && r.bestHit == h.bestHit && r.detectedHit == h.detectedHit && r.lastHitValid == h.lastHitValid
            && r.sideManeuver == h.sideManeuver && r.sideCollision == h.sideCollision
            && r.altimeter == ProbeHeightAhead(h.altimeter, cfg.lookAheadTime, s.hasTerrain, s.probe,
                                               s.vesselAltitude, s.vesselHeight)
  {
    var h := CheckHit(Prepared(rd, cfg, s), s);
    var steps := if h.angleDelta < cfg.angleDelta then h.littleSteps + 1 else h.littleSteps;
    var alt := ProbeHeightAhead(h.altimeter, cfg.lookAheadTime, s.hasTerrain, s.probe, s.vesselAltitude, s.vesselHeight);
    h.(littleSteps := steps, altimeter := alt, viewAngle := h.viewAngle + h.angleDelta)
  }

  // ---------------------------------------------------------------------
  // Properties
  // ---------------------------------------------------------------------

  /** The step is positive and never exceeds the base step. */
  predicate StepInvariant(rd: RadarState, cfg: Config)
  {
    0.0 < rd.angleDelta <= cfg.angleDelta
  }

  /**
   * The step is only ever reset to the base step or halved, so with a
   * positive base step it stays positive and at most the base step.
   */
  lemma UpdateKeepsStep(rd: RadarState, cfg: Config, s: Sensors)
    requires cfg.angleDelta > 0.0 && StepInvariant(rd, cfg)
    ensures StepInvariant(Update(rd, cfg, s), cfg)
    ensures var b := Prepared(rd, cfg, s);
            var r := Update(rd, cfg, s);
            r.angleDelta == b.angleDelta || r.angleDelta * 2.0 == b.angleDelta
  {
  }

  /** The initial radar satisfies the step invariant. */
  lemma InitialStep(cfg: Config)
    requires cfg.angleDelta > 0.0
    ensures StepInvariant(InitialState(cfg), cfg)
  {
  }

  /**
   * Refinement on a direct hit: the first one steps the view back by the
   * step and halves it, a consecutive one steps back by two steps; either
   * way the tick ends by adding the (new) step, and the hit is remembered.
   */
  lemma DirectHitRefines(rd: RadarState, cfg: Config, s: Sensors)
    requires DirectHit(Prepared(rd, cfg, s).curHit, s)
    ensures var b := Prepared(rd, cfg, s);
            var r := Update(rd, cfg, s);
            && r.lastHitValid
            && (!b.lastHitValid ==> r.angleDelta * 2.0 == b.angleDelta
                                    && r.viewAngle == b.viewAngle - b.angleDelta + r.angleDelta)
            && (b.lastHitValid ==> r.angleDelta == b.angleDelta && r.viewAngle == b.viewAngle - b.angleDelta)
  {
  }

  /**
   * A missed sweep (no ray hit) halves the step only right after a direct
   * hit and always clears the last-hit flag; the view advances by the step.
   */
  lemma MissAfterHitHalves(rd: RadarState, cfg: Config, s: Sensors)
    requires !Prepared(rd, cfg, s).curHit.valid
    ensures var b := Prepared(rd, cfg, s);
            var r := Update(rd, cfg, s);
            && !r.lastHitValid
            && r.angleDelta == (if b.lastHitValid then b.angleDelta / 2.0 else b.angleDelta)
            && r.viewAngle == b.viewAngle + r.angleDelta
  {
    var b := Prepared(rd, cfg, s);
    assert !ValidPoint(b.curHit.obstacle);
  }

  /**
   * The refined-step count grows by exactly one on ticks that end with a
   * step below the base step, and otherwise keeps its post-boundary value.
   */
  lemma LittleStepsCountRefinedTicks(rd: RadarState, cfg: Config, s: Sensors)
    ensures var b := Prepared(rd, cfg, s);
            var r := Update(rd, cfg, s);
            r.littleSteps == b.littleSteps + (if r.angleDelta < cfg.angleDelta then 1 else 0)
  {
  }

  /**
   * Within a tick the best sweep is replaced only by a higher cast sweep
   * (or any sweep when the best is invalid), and the detected sweep only by
   * a valid best sweep that is higher than it.
   */
  lemma BestAndDetectedOnlyRise(rd: RadarState, cfg: Config, s: Sensors)
    ensures var b := Prepared(rd, cfg, s);
            var r := Update(rd, cfg, s);
            && (r.bestHit == b.bestHit || (r.bestHit == b.curHit && SweepAbove(b.curHit, b.bestHit)))
            && (r.detectedHit == b.detectedHit
                || (r.detectedHit == r.bestHit && r.bestHit.valid && SweepAbove(r.bestHit, b.detectedHit)))
            && (r.bestHit.valid && b.bestHit.valid ==> r.bestHit.altitude >= b.bestHit.altitude)
  {
  }

  /**
   * The side manoeuvre changes within the hit check only on a side hit above
   * the collision threshold, and then only to the proposed manoeuvre when it
   * points the same way as the current one or is larger. Otherwise only a
   * rewind after a pass without side collision zeroes it.
   */
  lemma SideManeuverRules(rd: RadarState, cfg: Config, s: Sensors)
    ensures var b := Prepared(rd, cfg, s);
            var r := Update(rd, cfg, s);
            && (r.sideManeuver != b.sideManeuver ==>
                  && SideHit(b.curHit, s) && b.curHit.altitude > s.altThreshold
                  && s.avoidance.Some? && r.sideManeuver == s.avoidance.value
                  && (Dot(b.sideManeuver, s.avoidance.value) > 0.0
                      || SqrMagnitude(b.sideManeuver) < SqrMagnitude(s.avoidance.value)))
            && (b.sideManeuver != rd.sideManeuver ==>
                  b.sideManeuver == Zero && !rd.sideCollision && s.maneuverTimerElapsed
                  && (PastDownView(rd, cfg) || OverRefined(rd, cfg)))
  {
  }

  /**
   * The restart rules: past the down view the pass rewinds, carrying a
   * valid best sweep into the detected one, or resets; an over-refined pass
   * carries a valid best sweep and rewinds. Either way the next sweep is
   * cast at -UpViewAngle with the base step.
   */
  lemma PassRestarts(rd: RadarState, cfg: Config, s: Sensors)
    requires PastDownView(rd, cfg) || OverRefined(rd, cfg)
    ensures var b := Prepared(rd, cfg, s);
            && b.viewAngle == -cfg.upViewAngle && b.angleDelta == cfg.angleDelta
            && b.littleSteps == 0 && !b.lastHitValid && b.bestHit == NoSweep
            && b.detectedHit == (if rd.bestHit.valid then rd.bestHit
                                 else if PastDownView(rd, cfg) then NoSweep else rd.detectedHit)
  {
  }

  /**
   * The view angle never goes beyond one base step past the larger of the
   * down view and the restart angle.
   */
  lemma ViewAngleBounded(rd: RadarState, cfg: Config, s: Sensors)
    requires cfg.angleDelta > 0.0 && StepInvariant(rd, cfg)
    ensures Update(rd, cfg, s).viewAngle <= Max(cfg.downViewAngle, -cfg.upViewAngle) + cfg.angleDelta
  {
  }
}
