/**
 * The landing stage machine of the landing-trajectory autopilot
 * (`LandingTrajectoryAutopilot.do_land` and its helpers).
 *
 * Every physics tick `DoLand` advances the landing through the stages
 * Wait (coast to the braking point), Decelerate (braking burn), Coast
 * (fall towards the surface), SoftLanding (final powered descent) or
 * HardLanding (emergency descent), and finally Approach, Land or LandHere,
 * which hand over to other autopilots. The vessel's physics (fuel, thrust,
 * control authority, countdowns, timers, geometry) enters as the readings
 * of `Sensors`; terrain clearance along the trajectory and the landing-site
 * optimisation are the abstract functions of the obstacle search and the
 * flat-site scanner. The throttle includes the increments of the two
 * correction burns (attitude correction with thrusters and landing-site
 * correction). Control commands other than the throttle, the target and
 * the stage (warp, brakes, parachutes, thrust direction, the velocity
 * change of a collision-avoiding course correction, and the switch of the
 * throttle executor's own correction) are not modelled.
 */
module Landing {
  import opened Numeric
  import Opt = Optional
  import opened ObstacleSearch
  import FS = FlatSiteScanner

  // ---------------------------------------------------------------------
  // Configuration
  // ---------------------------------------------------------------------

  /**
   * The settings the stage machine reads: the landing-trajectory config and
   * the landing globals it refers to.
   */
  datatype Config = Config(
    dtol: real, hoverTimeThreshold: real, maxDPressure: real, minDPressure: real,
    brakeEndSpeed: real, correctionOffset: real, pointsPerFrame: int, brakeThrustThreshold: real,
    stopAtH: real, wideCheckAltitude: real, flyOverAlt: real, correctionThrustF: real,
    maxTimeToAlignment: real, tanHalfScanningAngle: real)

  /**
   * The shipped landing-trajectory defaults. The three globals (StopAtH,
   * WideCheckAltitude and the attitude controller's MaxTimeToAlignment) are
   * not part of this model and are given representative values. The
   * scanning cone enters as tan(ScanningAngle/2): the tangent of half the
   * default 15-degree ScanningAngle, in single precision.
   */
  const DefaultConfig: Config :=
    Config(1000.0, 60.0, 3.0, 1.0, 10.0, 20.0, 5, 100.0, 2.0, 1000.0, 1000.0, 2.0, 15.0, 0.13165249)

  /**
   * A usable configuration: a positive dynamic-pressure band, and the
   * divisors of the correction burns (Dtol, FlyOverAlt, and the alignment
   * window, clamped from below to 1 s) positive.
   */
  predicate ValidConfig(cfg: Config)
  {
    && 0.0 < cfg.minDPressure <= cfg.maxDPressure
    && cfg.dtol > 0.0 && cfg.flyOverAlt > 0.0 && cfg.maxTimeToAlignment >= 1.0
  }

  /** The obstacle margins of Wait and of collision braking. */
  const WaitObstacleOffset: real := 50.0
  const CollisionObstacleOffset: real := 100.0

  /** LandingStage. */
  datatype Stage = None | Start | Wait | Decelerate | Coast | HardLanding | SoftLanding | Approach | Land | LandHere

  /** The user's landing toggles. */
  datatype Settings = Settings(useChutes: bool, useBrakes: bool, correctTarget: bool, landASAP: bool)

  /** A landing target: a surface position, possibly a vessel. */
  datatype Target = Target(pos: FS.Coordinates, isVessel: bool)

  /**
   * The autopilot's state between ticks: the stage, the Working flag, the
   * landing-site search flags, the dynamic-pressure bookkeeping, the
   * throttle, the target (absent once cleared), the site scanner, whether
   * the landing program (AP2) is engaged, and whether the last landing-site
   * correction left the site still out of tolerance.
   */
  datatype Autopilot = Autopilot(
    stage: Stage, working: bool, scanned: bool, flatTarget: bool,
    dpThreshold: real, lastDP: real, relDP: real, lastErr: real,
    throttle: real, target: Opt.Option<Target>, scanner: FS.Scanner, engaged: bool,
    correctionNeeded: bool)

  /**
   * The fields the stages leave alone: the dynamic-pressure bookkeeping
   * (updated once per tick before the stage switch) and engagement.
   */
  predicate KeepsBookkeeping(before: Autopilot, after: Autopilot)
  {
    && after.dpThreshold == before.dpThreshold && after.lastDP == before.lastDP
    && after.relDP == before.relDP && after.lastErr == before.lastErr && after.engaged == before.engaged
  }

  // ---------------------------------------------------------------------
  // Dynamic-pressure threshold
  // ---------------------------------------------------------------------

  /** The threshold lies within the configured band. */
  predicate ThresholdInBand(th: real, cfg: Config)
  {
    cfg.minDPressure <= th <= cfg.maxDPressure
  }

  /** The attitude error grows or holds: the up-timer's condition. */
  predicate ErrorNotFalling(attitudeError: real, lastErr: real)
  {
    attitudeError > lastErr || Abs(attitudeError - lastErr) < 0.01
  }

  /** The new threshold and last dynamic pressure after the timers of one tick. */
  datatype Threshold = Threshold(th: real, lastDP: real)

  /**
   * The threshold adaptation of do_land: with dynamic pressure, the
   * up-timer (attitude error not falling) lowers the threshold by 10% down
   * to the minimum, or else the down-timer (error and pressure both
   * falling) raises it by 10% up to the maximum; each records the pressure.
   * Without dynamic pressure the threshold returns to the maximum.
   */
  function AdaptThreshold(cfg: Config, th: real, lastDP: real, lastErr: real, dynamicPressure: real,
                          attitudeError: real, upElapsed: bool, downElapsed: bool): (r: Threshold)
    ensures dynamicPressure <= 0.0 ==> r == Threshold(cfg.maxDPressure, lastDP)
    ensures dynamicPressure > 0.0 && ErrorNotFalling(attitudeError, lastErr) && upElapsed ==>
              && r.th >= cfg.minDPressure && r.th >= th * 0.9
              && (r.th == cfg.minDPressure || r.th == th * 0.9)
              && (th >= 0.0 ==> r.th <= Max(th, cfg.minDPressure))
              && (th > 0.0 && th > cfg.minDPressure ==> r.th < th)
              && r.lastDP == dynamicPressure
    ensures dynamicPressure > 0.0 && !(ErrorNotFalling(attitudeError, lastErr) && upElapsed)
            && attitudeError < lastErr && dynamicPressure < lastDP && downElapsed ==>
              && r.th <= cfg.maxDPressure && r.th <= th * 1.1
              && (r.th == cfg.maxDPressure || r.th == th * 1.1)
              && (th >= 0.0 ==> r.th >= Min(th, cfg.maxDPressure))
              && (th > 0.0 && th < cfg.maxDPressure ==> r.th > th)
              && r.lastDP == dynamicPressure
    ensures dynamicPressure > 0.0 && !(ErrorNotFalling(attitudeError, lastErr) && upElapsed)
            && !(attitudeError < lastErr && dynamicPressure < lastDP && downElapsed) ==>
              r == Threshold(th, lastDP)
  {
    if dynamicPressure > 0.0 then
      if ErrorNotFalling(attitudeError, lastErr) && upElapsed then
        Threshold(ClampL(th * 0.9, cfg.minDPressure), dynamicPressure)
      else if attitudeError < lastErr && dynamicPressure < lastDP && downElapsed then
        Threshold(ClampH(th * 1.1, cfg.maxDPressure), dynamicPressure)
      else Threshold(th, lastDP)
    else Threshold(cfg.maxDPressure, lastDP)
  }

  /**
   * The threshold never leaves [MinDPressure, MaxDPressure]: it starts (and
   * is reset) at the maximum, and every adaptation keeps it in the band.
   */
  lemma ThresholdStaysInBand(cfg: Config, th: real, lastDP: real, lastErr: real,
                                                dynamicPressure: real, attitudeError: real,
                                                upElapsed: bool, downElapsed: bool)
    requires ValidConfig(cfg) && ThresholdInBand(th, cfg)
    ensures ThresholdInBand(cfg.maxDPressure, cfg)
    ensures ThresholdInBand(AdaptThreshold(cfg, th, lastDP, lastErr, dynamicPressure, attitudeError,
                                           upElapsed, downElapsed).th, cfg)
  {
    var r := AdaptThreshold(cfg, th, lastDP, lastErr, dynamicPressure, attitudeError, upElapsed, downElapsed);
    if dynamicPressure > 0.0 && ErrorNotFalling(attitudeError, lastErr) && upElapsed {
      assert th * 0.9 <= cfg.maxDPressure;
    } else if dynamicPressure > 0.0 && attitudeError < lastErr && dynamicPressure < lastDP && downElapsed {
      assert th * 1.1 >= cfg.minDPressure;
    }
  }

  // ---------------------------------------------------------------------
  // Feasibility gates
  // ---------------------------------------------------------------------

  /** The hover time the landing must keep in reserve: a fifth of the threshold under LandASAP. */
  function NeededHoverTime(cfg: Config, landASAP: bool): (t: real)
    ensures cfg.hoverTimeThreshold >= 0.0 ==> 0.0 <= t <= cfg.hoverTimeThreshold
    ensures landASAP ==> t * 5.0 == cfg.hoverTimeThreshold
    ensures !landASAP ==> t == cfg.hoverTimeThreshold
  {
    if landASAP then cfg.hoverTimeThreshold / 5.0 else cfg.hoverTimeThreshold
  }

  /**
   * check_initial_trajectory: the predicted landing is close enough to the
   * target and there is enough fuel, i.e. the hover time left after the
   * manoeuvre, braking and touchdown fuel (zero when that fuel is not there)
   * exceeds the reserve, or propellant is infinite.
   */
  function CheckInitialTrajectory(cfg: Config, landASAP: bool, distanceToTarget: real, fuelNeeded: real,
                                  fuelAvailable: real, maxHoverTime: real -> real, infinitePropellant: bool): (ok: bool)
    ensures cfg.hoverTimeThreshold >= 0.0 ==>
              (ok <==> distanceToTarget < cfg.dtol
                       && (infinitePropellant
                           || (fuelNeeded < fuelAvailable
                               && maxHoverTime(fuelAvailable - fuelNeeded) > NeededHoverTime(cfg, landASAP))))
    ensures ok ==> distanceToTarget < cfg.dtol
  {
    var hoverTime := if fuelNeeded < fuelAvailable then maxHoverTime(fuelAvailable - fuelNeeded) else 0.0;
    var enoughFuel := hoverTime > NeededHoverTime(cfg, landASAP) || infinitePropellant;
    distanceToTarget < cfg.dtol && enoughFuel
  }

  /** The fuel test of Coast: enough fuel for touchdown with the hover reserve to spare, or infinite propellant. */
  predicate CoastFuelOk(cfg: Config, landASAP: bool, fuelLeft: real, fuelNeeded: real,
                        maxHoverTime: real -> real, infinitePropellant: bool)
  {
    infinitePropellant
    || !(fuelNeeded >= fuelLeft || maxHoverTime(fuelLeft - fuelNeeded) < NeededHoverTime(cfg, landASAP))
  }

  /**
   * The two fuel gates agree on the same figures, except at the boundary: a
   * trajectory whose fuel passes the initial check also passes Coast's fuel
   * test, while a hover time exactly equal to the reserve passes Coast's
   * test but not the initial check.
   */
  lemma FuelGatesAgree(cfg: Config, landASAP: bool, fuelLeft: real, fuelNeeded: real,
                       maxHoverTime: real -> real, infinitePropellant: bool)
    requires cfg.hoverTimeThreshold >= 0.0
    ensures CheckInitialTrajectory(cfg, landASAP, cfg.dtol - 1.0, fuelNeeded, fuelLeft, maxHoverTime, infinitePropellant)
            ==> CoastFuelOk(cfg, landASAP, fuelLeft, fuelNeeded, maxHoverTime, infinitePropellant)
    ensures !infinitePropellant && fuelNeeded < fuelLeft
            && maxHoverTime(fuelLeft - fuelNeeded) == NeededHoverTime(cfg, landASAP) ==>
              CoastFuelOk(cfg, landASAP, fuelLeft, fuelNeeded, maxHoverTime, infinitePropellant)
              && !CheckInitialTrajectory(cfg, landASAP, cfg.dtol - 1.0, fuelNeeded, fuelLeft, maxHoverTime, infinitePropellant)
  {
  }

  // ---------------------------------------------------------------------
  // Trajectory optimisation
  // ---------------------------------------------------------------------

  /** The figures of a landing trajectory the optimizer compares. */
  datatype TrajectoryFit = TrajectoryFit(distanceToTarget: real, deltaR: real, deltaFi: real)

  /**
   * continue_calculation: keep optimising while there is no best or
   * previous trajectory yet, or while the best one still misses the target
   * by more than the tolerance and the last step still changed the orbit
   * parameters by more than 1e-5.
   */
  function ContinueCalculation(best: Opt.Option<TrajectoryFit>, prev: Opt.Option<TrajectoryFit>,
                               cur: TrajectoryFit, dtol: real): (go: bool)
    ensures best.None? || prev.None? ==> go
    ensures go && best.Some? && prev.Some? ==> best.value.distanceToTarget > dtol
    ensures best.Some? && prev.Some? && best.value.distanceToTarget > dtol
            && (Abs(cur.deltaR - prev.value.deltaR) > 1e-5 || Abs(cur.deltaFi - prev.value.deltaFi) > 1e-5)
            ==> go
    ensures go && best.Some? && prev.Some? ==>
              Abs(cur.deltaR - prev.value.deltaR) > 1e-5 || Abs(cur.deltaFi - prev.value.deltaFi) > 1e-5
  {
    best.None? || prev.None?
    || (best.value.distanceToTarget > dtol
        && (Abs(cur.deltaR - prev.value.deltaR) > 1e-5 || Abs(cur.deltaFi - prev.value.deltaFi) > 1e-5))
  }

  /**
   * The optimisation stops once it has a best and a previous trajectory and
   * either the best one lands within the tolerance or the last step left
   * both orbit parameters (practically) unchanged.
   */
  lemma CalculationStops(best: TrajectoryFit, prev: TrajectoryFit, cur: TrajectoryFit, dtol: real)
    requires best.distanceToTarget <= dtol
             || (Abs(cur.deltaR - prev.deltaR) <= 1e-5 && Abs(cur.deltaFi - prev.deltaFi) <= 1e-5)
    ensures !ContinueCalculation(Opt.Some(best), Opt.Some(prev), cur, dtol)
  {
  }

  // ---------------------------------------------------------------------
  // Stage entry helpers
  // ---------------------------------------------------------------------

  /**
   * The autopilot as constructed: stage None, nothing scanned, the
   * threshold at the maximum, the error and pressure records at zero, and
   * an idle scanner accepting a third of the global unevenness limit.
   */
  function NewAutopilot(cfg: Config, maxUnevenness: real): (r: Autopilot)
    ensures r.stage == None && !r.working && !r.scanned && !r.flatTarget && !r.engaged && r.target.None?
    ensures !r.correctionNeeded
    ensures ValidConfig(cfg) ==> ThresholdInBand(r.dpThreshold, cfg)
    ensures FS.Idle(r.scanner) && r.scanner.flatRegion.None? && r.scanner.maxUnevenness * 3.0 == maxUnevenness
  {
    Autopilot(None, false, false, false, cfg.maxDPressure, 0.0, 0.0, 0.0, 0.0, Opt.None,
              FS.NewScanner(maxUnevenness / 3.0), false, false)
  }

  /**
   * reset: back to stage None with an idle scanner, the threshold at the
   * maximum, the records cleared and Working and scanned off. The flat
   * target flag and the target are left as they were.
   */
  function ResetAutopilot(cfg: Config, ap: Autopilot): (r: Autopilot)
    ensures r.stage == None && !r.working && !r.scanned && r.lastErr == 0.0 && r.lastDP == 0.0
    ensures ValidConfig(cfg) ==> ThresholdInBand(r.dpThreshold, cfg)
    ensures FS.Idle(r.scanner) && r.scanner.flatRegion.None? && r.scanner.maxUnevenness == ap.scanner.maxUnevenness
    ensures r.flatTarget == ap.flatTarget && r.target == ap.target && r.throttle == ap.throttle
  {
    ap.(stage := None, scanner := FS.Reset(ap.scanner), dpThreshold := cfg.maxDPressure, lastErr := 0.0,
        lastDP := 0.0, working := false, scanned := false)
  }

  /** start_landing: (re)start from Wait with Working, scanned and flat_target cleared. */
  function StartLanding(ap: Autopilot): Autopilot
  {
    ap.(stage := Wait, working := false, scanned := false, flatTarget := false)
  }

  /** decelerate: enter Decelerate; Working marks a braking burn against a detected collision. */
  function StartDecelerating(ap: Autopilot, collisionDetected: bool): Autopilot
  {
    ap.(stage := Decelerate, working := collisionDetected)
  }

  /** approach: hand over to the go-to-target navigation. */
  function StartApproach(ap: Autopilot): Autopilot
  {
    ap.(stage := Approach)
  }

  /** land: hand over to the landing autopilot. */
  function StartLand(ap: Autopilot): Autopilot
  {
    ap.(stage := Land)
  }

  // ---------------------------------------------------------------------
  // Sensors
  // ---------------------------------------------------------------------

  /**
   * The readings of one tick, grouped by the stage that uses them. Timer
   * fields say whether the timer's period has elapsed (for RunIf, whether
   * it fires when its condition holds); `countdown` is the time to impact
   * computed at the start of the tick, `brakeCountdown` the time to the
   * braking point computed in Wait. `turnTime` is the time to turn to the
   * commanded attitude with all torque; `minStopTimeNoEngines` and
   * `rotationTimeNoEngines` are the time to stop the rotation and to turn
   * without engine torque.
   */
  datatype Sensors = Sensors(
    // common
    landed: bool, noEngines: bool, noEnginesTimerElapsed: bool,
    dynamicPressure: real, attitudeError: real, dpUpElapsed: bool, dpDownElapsed: bool,
    // attitude correction with thrusters
    steeringEngines: bool, minStopTimeNoEngines: real, rotationTimeNoEngines: real,
    clearance: Clearance, startUT: real, brakeEndUT: real,
    vesselSize: real, vesselRadius: real, targetRadius: real,
    haveControlAuthority: bool, havePotentialAuthority: bool,
    countdown: real, fuelMass: real, trajectoryDistance: real, vesselDistance: real,
    // Wait
    brakeCountdown: real, willOverheat: bool,
    // Decelerate
    collisionTimerPassed: bool, overheating: bool, maxMassFlow: real, vesselAfterTarget: bool,
    executorBusy: bool, deltaR: real, decelerationTimerPassed: bool, canAerobrake: bool,
    brakeUpDot: real, parachutesActive: bool,
    // Coast
    ttb: real, turnTimeNoEngines: real, maneuverOffset: real, relVe: real, landingFuelNeeded: real,
    maxHoverTime: real -> real, infinitePropellant: bool,
    // HardLanding and SoftLanding
    maxThrust: real, terminalVelocity: real, onPlanetTTB: real, haveParachutes: bool,
    parachutesDeployed: bool, verticalSpeed: real, geeVSF: real,
    courseCorrection: bool, surfacePoint: Target, turnTime: real, srfSpeed: real, relAltitude: real,
    maxAccel: real, g: real, horizontalSpeed: real, alignmentFactor: real,
    // Approach
    goToTargetOn: bool,
    // landing-site scan
    bodyRadius: real, siteRun: FS.Optimizer, terrain: FS.Terrain)

  /**
   * Readings that are physically meaningful: a vessel of positive size, a
   * target radius that is not negative, a unit-vector dot product not
   * below -1, and a body of positive radius.
   */
  predicate Physical(s: Sensors)
  {
    s.vesselSize > 0.0 && s.targetRadius >= 0.0 && s.brakeUpDot >= -1.0 && s.bodyRadius > 0.0
  }

  /** landing_deadzone: the vessel's size plus the target's radius. */
  function Deadzone(s: Sensors): real
  {
    s.vesselSize + s.targetRadius
  }

  /** obstacle_ahead(offset) over the current trajectory's braking window. */
  function Deficit(s: Sensors, offset: real): real
  {
    ObstacleAhead(s.clearance, true, s.startUT, s.brakeEndUT, offset)
  }

  // ---------------------------------------------------------------------
  // Correction burns
  // ---------------------------------------------------------------------

  /**
   * correct_attitude_with_thrusters fires: steering engines are active; the
   * attitude error exceeds max(1 - rel_dP, 0.1) or the rotation cannot be
   * stopped within the turn time without engines; and control authority is
   * lacking, there is dynamic pressure, or turning without engines takes
   * longer than the countdown.
   */
  predicate AttitudeCorrectionFires(relDP: real, s: Sensors, countdown: real)
  {
    && s.steeringEngines
    && (s.attitudeError > ClampL(1.0 - relDP, 0.1) || s.minStopTimeNoEngines > s.turnTime)
    && (!s.haveControlAuthority || relDP > 0.0 || s.rotationTimeNoEngines > countdown)
  }

  /**
   * The throttle correct_attitude_with_thrusters adds when it fires: the
   * turn time scaled by 1 + rel_dP over the countdown clamped to
   * [1, MaxTimeToAlignment], at most full throttle; nothing otherwise.
   */
  function AttitudeThrust(cfg: Config, relDP: real, s: Sensors, countdown: real): (dt: real)
    requires ValidConfig(cfg)
    ensures !AttitudeCorrectionFires(relDP, s, countdown) ==> dt == 0.0
    ensures dt <= 1.0
    ensures relDP >= -1.0 && s.turnTime >= 0.0 ==> dt >= 0.0
    ensures AttitudeCorrectionFires(relDP, s, countdown) && relDP > -1.0 && s.turnTime > 0.0 ==> dt > 0.0
  {
    if AttitudeCorrectionFires(relDP, s, countdown) then
      var window := Clamp(countdown, 1.0, cfg.maxTimeToAlignment);
      assert window >= 1.0;
      var x := (1.0 + relDP) * s.turnTime / window;
      SignOfScaledTime(1.0 + relDP, s.turnTime, window);
      ClampH(x, 1.0)
    else 0.0
  }

  /** The sign of a * b / w for a positive w and non-negative factors. */
  lemma SignOfScaledTime(a: real, b: real, w: real)
    requires w > 0.0
    ensures a >= 0.0 && b >= 0.0 ==> a * b / w >= 0.0
    ensures a > 0.0 && b > 0.0 ==> a * b / w > 0.0
  {
    if a >= 0.0 && b >= 0.0 {
      assert a * b >= 0.0;
      if a > 0.0 && b > 0.0 {
        assert a * b > 0.0;
      }
    }
  }

  /** The outcome of correct_landing_site: whether it fired, the throttle it adds, and the new correction_needed. */
  datatype SiteCorrection = SiteCorrection(fired: bool, thrust: real, stillNeeded: bool)

  /**
   * correct_landing_site: with control authority and the predicted landing
   * outside the deadzone, correct while a correction is pending, while below
   * FlyOverAlt, or while the error exceeds Dtol scaled by the altitude in
   * units of FlyOverAlt; the burn is the error over the maximum acceleration
   * and Dtol times CorrectionThrustF, at most 0.9 of hover throttle (a zero
   * acceleration gives +infinity, so the cap), and the correction stays
   * pending while the error exceeds Dtol. Otherwise nothing is added and
   * nothing stays pending.
   */
  function CorrectLandingSite(cfg: Config, s: Sensors, correctionNeeded: bool): (c: SiteCorrection)
    requires ValidConfig(cfg)
    ensures c.fired <==> s.haveControlAuthority && s.trajectoryDistance > Deadzone(s)
                         && (correctionNeeded || s.relAltitude < cfg.flyOverAlt
                             || s.trajectoryDistance * cfg.flyOverAlt > cfg.dtol * s.relAltitude)
    ensures !c.fired ==> c.thrust == 0.0 && !c.stillNeeded
    ensures c.fired ==> c.thrust <= s.geeVSF * 0.9 && (c.stillNeeded <==> s.trajectoryDistance > cfg.dtol)
    ensures c.fired && Physical(s) && s.maxAccel > 0.0 && cfg.correctionThrustF > 0.0 && s.geeVSF > 0.0
            ==> c.thrust > 0.0
  {
    var relAltitude := s.relAltitude / cfg.flyOverAlt;
    assert relAltitude < 1.0 <==> s.relAltitude < cfg.flyOverAlt;
    assert s.trajectoryDistance > cfg.dtol * relAltitude
           <==> s.trajectoryDistance * cfg.flyOverAlt > cfg.dtol * s.relAltitude by {
      assert cfg.dtol * relAltitude * cfg.flyOverAlt == cfg.dtol * s.relAltitude;
      MultiplyPositive(s.trajectoryDistance, cfg.dtol * relAltitude, cfg.flyOverAlt);
    }
    if s.haveControlAuthority && s.trajectoryDistance > Deadzone(s)
       && (correctionNeeded || relAltitude < 1.0 || s.trajectoryDistance > cfg.dtol * relAltitude)
    then
      var cap := s.geeVSF * 0.9;
      var thrust :=
        if s.maxAccel != 0.0 then ClampH(s.trajectoryDistance / s.maxAccel / cfg.dtol * cfg.correctionThrustF, cap)
        else cap;
      assert Physical(s) && s.maxAccel > 0.0 && cfg.correctionThrustF > 0.0 ==>
               s.trajectoryDistance / s.maxAccel / cfg.dtol * cfg.correctionThrustF > 0.0 by {
        if Physical(s) && s.maxAccel > 0.0 && cfg.correctionThrustF > 0.0 {
          assert s.trajectoryDistance / s.maxAccel / cfg.dtol > 0.0;
        }
      }
      SiteCorrection(true, thrust, s.trajectoryDistance > cfg.dtol)
    else SiteCorrection(false, 0.0, false)
  }

  /** Multiplying by a positive factor keeps a strict order, in both directions. */
  lemma MultiplyPositive(a: real, b: real, k: real)
    requires k > 0.0
    ensures a > b <==> a * k > b * k
  {
    if a > b {
      assert (a - b) * k > 0.0;
    } else {
      assert (b - a) * k >= 0.0;
    }
  }

  // ---------------------------------------------------------------------
  // Landing-site scan
  // ---------------------------------------------------------------------

  /**
   * The scanner a scan frame runs on: an idle scanner is started around the
   * target with the configured frame budget and limited to the scanning
   * cone below the vessel (MaxDist = altitude * tan(ScanningAngle/2)); a
   * running one is used as it is.
   */
  function SiteScanner(cfg: Config, ap: Autopilot, s: Sensors): (sc: FS.Scanner)
    requires ap.target.Some? && s.bodyRadius > 0.0
    ensures !FS.Idle(ap.scanner) ==> sc == ap.scanner
    ensures FS.Idle(ap.scanner) ==>
              && !FS.Idle(sc) && sc.optimizer == Opt.Some(s.siteRun) && sc.flatRegion.None?
              && sc.start == ap.target.value.pos && sc.pointsPerFrame == cfg.pointsPerFrame
              && sc.maxDist == s.relAltitude * cfg.tanHalfScanningAngle
              && sc.maxUnevenness == ap.scanner.maxUnevenness
  {
    if FS.Idle(ap.scanner) then
      FS.Start(ap.scanner, ap.target.value.pos, cfg.pointsPerFrame, s.vesselSize, s.bodyRadius, s.siteRun)
        .(maxDist := s.relAltitude * cfg.tanHalfScanningAngle)
    else ap.scanner
  }

  /**
   * scan_for_landing_site: nothing once scanned or once a flat region is
   * known. Otherwise start the scanner around the target if it is idle,
   * limiting it to the scanning cone below the vessel, and scan one frame.
   * When the scan finishes, the flat region becomes a flat target unless it
   * is the target vessel's own position; a flat region elsewhere than the
   * target becomes the new (non-vessel) target; and the site counts as
   * scanned.
   */
  function ScanForLandingSite(cfg: Config, ap: Autopilot, s: Sensors): (r: Autopilot)
    requires ap.target.Some? && s.bodyRadius > 0.0
    ensures ap.scanned || ap.scanner.flatRegion.Some? ==> r == ap
    ensures !ap.scanned && ap.scanner.flatRegion.None? ==>
              var (sc', more) := FS.Scan(s.terrain, SiteScanner(cfg, ap, s));
              r.scanner == sc' && (r.scanned <==> !more)
    ensures !ap.scanned && r.scanned && r.scanner.flatRegion.Some?
            && r.scanner.flatRegion.value != ap.target.value.pos ==>
              r.flatTarget && r.target == Opt.Some(Target(r.scanner.flatRegion.value, false))
    ensures r.stage == ap.stage && r.working == ap.working && r.throttle == ap.throttle
    ensures KeepsBookkeeping(ap, r) && r.target.Some?
    ensures !r.scanned ==> r.flatTarget == ap.flatTarget && r.target == ap.target
    ensures !ap.scanned && r.scanned ==>
              (r.flatTarget <==> r.scanner.flatRegion.Some?
                                 && (r.scanner.flatRegion.value != ap.target.value.pos || !ap.target.value.isVessel))
    ensures r.target != ap.target ==>
              && r.flatTarget && r.scanner.flatRegion.Some?
              && r.target == Opt.Some(Target(r.scanner.flatRegion.value, false))
              && r.scanner.flatRegion.value != ap.target.value.pos
  {
    if ap.scanned || ap.scanner.flatRegion.Some? then ap
    else
      var target := ap.target.value;
      var (sc', more) := FS.Scan(s.terrain, SiteScanner(cfg, ap, s));
      if more then ap.(scanner := sc')
      else
        var flat := sc'.flatRegion.Some? && (sc'.flatRegion.value != target.pos || !target.isVessel);
        var newTarget := if flat && sc'.flatRegion.value != target.pos
                         then Opt.Some(Target(sc'.flatRegion.value, false)) else ap.target;
        ap.(scanner := sc', flatTarget := flat, target := newTarget, scanned := true)
  }

  /**
   * The landing site is scanned once: a call on an unscanned site without a
   * flat region leaves the scanner running, and once a call marks the site
   * scanned every later call leaves the state as it is.
   */
  lemma ScanSettles(cfg: Config, ap: Autopilot, s: Sensors, later: Sensors)
    requires ap.target.Some? && s.bodyRadius > 0.0 && later.bodyRadius > 0.0
    ensures var r := ScanForLandingSite(cfg, ap, s);
            && (!ap.scanned && ap.scanner.flatRegion.None? ==> !FS.Idle(r.scanner))
            && (r.scanned ==> ScanForLandingSite(cfg, r, later) == r)
  {
    var r := ScanForLandingSite(cfg, ap, s);
    if !ap.scanned && ap.scanner.flatRegion.None? {
      assert !FS.Idle(SiteScanner(cfg, ap, s));
    }
  }

  // ---------------------------------------------------------------------
  // Stages
  // ---------------------------------------------------------------------

  /**
   * Wait: the throttle is cut and only the attitude correction (against the
   * countdown to the braking point) may add to it; an obstacle within 50 m
   * of the braking trajectory starts a collision-avoiding deceleration
   * before anything else; then reaching the braking point (countdown at most
   * the relative dynamic pressure) or a predicted overheat starts the normal
   * deceleration; close to the braking point the landing site is scanned if
   * requested.
   */
  function WaitStage(cfg: Config, st: Settings, ap: Autopilot, s: Sensors): (r: Autopilot)
    requires ValidConfig(cfg) && ap.stage == Wait && ap.target.Some? && s.bodyRadius > 0.0
    ensures KeepsBookkeeping(ap, r) && r.correctionNeeded == ap.correctionNeeded
    ensures r.stage == Wait || r.stage == Decelerate
    ensures r.throttle == AttitudeThrust(cfg, ap.relDP, s, s.brakeCountdown) && r.target.Some?
    ensures r.stage == Decelerate <==>
              Deficit(s, WaitObstacleOffset) > 0.0 || s.brakeCountdown <= ap.relDP || s.willOverheat
    ensures r.stage == Decelerate ==> (r.working <==> Deficit(s, WaitObstacleOffset) > 0.0)
  {
    var ap1 := ap.(throttle := 0.0 + AttitudeThrust(cfg, ap.relDP, s, s.brakeCountdown));
    if Deficit(s, WaitObstacleOffset) > 0.0 then StartDecelerating(ap1, true)
    else if s.brakeCountdown <= ap.relDP || s.willOverheat then StartDecelerating(ap1, false)
    else if st.correctTarget && s.brakeCountdown < cfg.correctionOffset then ScanForLandingSite(cfg, ap1, s)
    else ap1
  }

  /** The fuel lasts less than 3 s at full flow (IEEE division: x/0 is +-infinity, 0/0 fails every test). */
  predicate FuelForUnderThreeSeconds(fuel: real, maxMassFlow: real)
  {
    if maxMassFlow != 0.0 then fuel / maxMassFlow < 3.0 else fuel < 0.0
  }

  /**
   * The throttle of a deceleration that has not yet reached the target:
   * full unless the vessel is farther from the target than the predicted
   * landing site, in which case it scales with the landing error (a zero
   * denominator gives +infinity, capped to full throttle).
   */
  function BrakeThrottle(s: Sensors): (t: real)
    requires Physical(s) && s.trajectoryDistance > Deadzone(s)
    ensures 0.0 < t <= 1.0
  {
    if s.vesselDistance > s.trajectoryDistance then
      if 1.0 + s.brakeUpDot > 0.0 then
        var q := s.trajectoryDistance / Deadzone(s);
        assert q > 0.0;
        assert q / 3.0 > 0.0;
        var x := q / 3.0 / (1.0 + s.brakeUpDot);
        assert x > 0.0;
        ClampH(x, 1.0)
      else 1.0
    else 1.0
  }

  /**
   * The deceleration timer has run out: it is reset on every tick with
   * control authority, so it can only run out while authority is lacking.
   */
  predicate DecelerationTimedOut(s: Sensors)
  {
    !s.haveControlAuthority && s.decelerationTimerPassed
  }

  /** The braking burn keeps the vessel short of the target: the branch that keeps decelerating. */
  predicate KeepBraking(cfg: Config, s: Sensors)
  {
    s.overheating
    || (s.deltaR <= 0.0 && !DecelerationTimedOut(s) && s.trajectoryDistance > Deadzone(s) && !s.canAerobrake)
  }

  /**
   * A collision-avoiding burn (Working): add the attitude correction to the
   * throttle, hold while an obstacle lies within 100 m of the trajectory
   * and until the collision timer passes, then restart the landing from
   * Wait.
   */
  function CollisionBraking(cfg: Config, ap: Autopilot, s: Sensors): (r: Autopilot)
    requires ValidConfig(cfg) && ap.stage == Decelerate
    ensures var corrected := ap.(throttle := ap.throttle + AttitudeThrust(cfg, ap.relDP, s, s.countdown));
            && (r.stage == Wait <==> Deficit(s, CollisionObstacleOffset) <= 0.0 && s.collisionTimerPassed)
            && (r.stage == Wait ==> r == StartLanding(corrected))
            && (r.stage != Wait ==> r == corrected)
  {
    var ap1 := ap.(throttle := ap.throttle + AttitudeThrust(cfg, ap.relDP, s, s.countdown));
    if Deficit(s, CollisionObstacleOffset) > 0.0 then ap1
    else if !s.collisionTimerPassed then ap1
    else StartLanding(ap1)
  }

  /**
   * A normal deceleration: scan for a site if requested; go to HardLanding
   * when not overheating with under 3 s of fuel; past the target, brake
   * until the manoeuvre executor is done; short of the target, burn (or
   * aerobrake) on; otherwise coast.
   */
  function NormalDeceleration(cfg: Config, st: Settings, ap: Autopilot, s: Sensors): (r: Autopilot)
    requires ap.stage == Decelerate && ap.target.Some? && Physical(s)
    ensures KeepsBookkeeping(ap, r) && r.correctionNeeded == ap.correctionNeeded
    ensures r.stage in {Decelerate, HardLanding, Coast} && r.target.Some?
    ensures r.stage == HardLanding <==> !s.overheating && FuelForUnderThreeSeconds(s.fuelMass, s.maxMassFlow)
    ensures r.stage == Coast <==>
              && (s.overheating || !FuelForUnderThreeSeconds(s.fuelMass, s.maxMassFlow))
              && (if s.vesselAfterTarget then !s.executorBusy else !KeepBraking(cfg, s))
  {
    var ap1 := if st.correctTarget then ScanForLandingSite(cfg, ap, s) else ap;
    if !s.overheating && FuelForUnderThreeSeconds(s.fuelMass, s.maxMassFlow) then ap1.(stage := HardLanding)
    else if s.vesselAfterTarget then
      if s.executorBusy then ap1 else ap1.(stage := Coast)
    else if KeepBraking(cfg, s) then
      var throttle := if s.overheating then 1.0 else BrakeThrottle(s);
      var aerobraking := ap.relDP > 0.0 && s.parachutesActive;
      if throttle > 0.0 || aerobraking then ap1.(throttle := throttle)
      else ap1.(throttle := throttle, stage := Coast)
    else ap1.(stage := Coast)
  }

  /**
   * Decelerate: a collision-avoiding burn while Working, otherwise a normal
   * deceleration. Coast and HardLanding are reached only from the normal
   * deceleration, each exactly under its conditions.
   */
  function DecelerateStage(cfg: Config, st: Settings, ap: Autopilot, s: Sensors): (r: Autopilot)
    requires ValidConfig(cfg) && ap.stage == Decelerate && ap.target.Some? && Physical(s)
    ensures KeepsBookkeeping(ap, r) && r.correctionNeeded == ap.correctionNeeded
    ensures r.stage in {Decelerate, Wait, HardLanding, Coast}
    ensures r.target.Some?
    ensures ap.working ==>
              var corrected := ap.(throttle := ap.throttle + AttitudeThrust(cfg, ap.relDP, s, s.countdown));
              && (r.stage == Wait <==> Deficit(s, CollisionObstacleOffset) <= 0.0 && s.collisionTimerPassed)
              && (r.stage == Wait ==> r == StartLanding(corrected))
              && (r.stage != Wait ==> r == corrected)
    ensures !ap.working ==> r.stage != Wait
    ensures r.stage == HardLanding <==>
              !ap.working && !s.overheating && FuelForUnderThreeSeconds(s.fuelMass, s.maxMassFlow)
    ensures !ap.working ==>
              (r.stage == Coast <==>
                 && (s.overheating || !FuelForUnderThreeSeconds(s.fuelMass, s.maxMassFlow))
                 && (if s.vesselAfterTarget then !s.executorBusy else !KeepBraking(cfg, s)))
  {
    if ap.working then CollisionBraking(cfg, ap, s) else NormalDeceleration(cfg, st, ap, s)
  }

  /** The remaining time to the final burn once Coast deducts the burn, turn and pressure margins. */
  function CoastCountdown(s: Sensors): real
  {
    s.countdown - Max(s.ttb + s.turnTimeNoEngines + s.dynamicPressure, s.maneuverOffset)
  }

  /** The vessel can make a powered soft landing: thrust, control authority and fuel. */
  predicate SoftLandingFeasible(cfg: Config, st: Settings, s: Sensors)
  {
    && s.relVe > 0.0
    && (s.haveControlAuthority || s.havePotentialAuthority)
    && CoastFuelOk(cfg, st.landASAP, s.fuelMass, s.landingFuelNeeded, s.maxHoverTime, s.infinitePropellant)
  }

  /**
   * The correction burn of Coast from a cut throttle: unless the vessel can
   * aerobrake, correct the landing site, and when that fires also correct
   * the attitude; correction_needed is updated only when the site
   * correction runs.
   */
  function CoastCorrection(cfg: Config, ap: Autopilot, s: Sensors): (r: Autopilot)
    requires ValidConfig(cfg)
    ensures r == ap.(throttle := r.throttle, correctionNeeded := r.correctionNeeded)
    ensures s.canAerobrake ==> r.throttle == 0.0 && r.correctionNeeded == ap.correctionNeeded
    ensures !s.canAerobrake ==>
              var c := CorrectLandingSite(cfg, s, ap.correctionNeeded);
              && r.correctionNeeded == c.stillNeeded
              && r.throttle == (if c.fired then c.thrust + AttitudeThrust(cfg, ap.relDP, s, s.countdown) else 0.0)
  {
    if s.canAerobrake then ap.(throttle := 0.0)
    else
      var c := CorrectLandingSite(cfg, s, ap.correctionNeeded);
      var thrust := 0.0 + c.thrust;
      var thrust' := if c.fired then thrust + AttitudeThrust(cfg, ap.relDP, s, s.countdown) else thrust;
      ap.(throttle := thrust', correctionNeeded := c.stillNeeded)
  }

  /**
   * Coast: the throttle is cut and only the correction burns add to it;
   * stay while time remains before the final burn; then clear Working and
   * go to SoftLanding if a powered landing is feasible, otherwise to
   * HardLanding.
   */
  function CoastStage(cfg: Config, st: Settings, ap: Autopilot, s: Sensors): (r: Autopilot)
    requires ValidConfig(cfg)
    ensures KeepsBookkeeping(ap, r)
    ensures r.target == ap.target
    ensures r.throttle == CoastCorrection(cfg, ap, s).throttle
    ensures r.correctionNeeded == CoastCorrection(cfg, ap, s).correctionNeeded
    ensures CoastCountdown(s) > 0.0 ==> r == CoastCorrection(cfg, ap, s)
    ensures CoastCountdown(s) <= 0.0 ==>
              !r.working && (r.stage == SoftLanding <==> SoftLandingFeasible(cfg, st, s))
              && (r.stage == SoftLanding || r.stage == HardLanding)
  {
    var ap1 := CoastCorrection(cfg, ap, s);
    if CoastCountdown(s) > 0.0 then ap1
    else
      var ap2 := ap1.(working := false);
      if s.relVe <= 0.0 then ap2.(stage := HardLanding)
      else if !(s.haveControlAuthority || s.havePotentialAuthority) then ap2.(stage := HardLanding)
      else if !CoastFuelOk(cfg, st.landASAP, s.fuelMass, s.landingFuelNeeded, s.maxHoverTime, s.infinitePropellant)
      then ap2.(stage := HardLanding)
      else ap2.(stage := SoftLanding)
  }

  /** HardLanding can burn: thrust, a fall faster than 4 m/s, and some control authority. */
  predicate HardBurnPossible(s: Sensors)
  {
    s.maxThrust > 0.0 && s.terminalVelocity > 4.0 && (s.haveControlAuthority || s.havePotentialAuthority)
  }

  /** No parachute is still to open: there are none, or they are active and deployed. */
  predicate ChutesSettled(s: Sensors)
  {
    !s.haveParachutes || (s.parachutesActive && s.parachutesDeployed)
  }

  /**
   * HardLanding: with thrust, a fall faster than 4 m/s and some control
   * authority, burn once the countdown (less the burn time) has run out and
   * no parachute is still to open, and idle while more than 0.5 s remain;
   * when burning, full throttle while falling faster than 5 m/s, otherwise
   * hover throttle. The stage never changes here.
   */
  function HardLandingStage(ap: Autopilot, s: Sensors): (r: Autopilot)
    ensures KeepsBookkeeping(ap, r)
    ensures r.stage == ap.stage && r.target == ap.target
    ensures r == ap.(working := r.working, throttle := r.throttle)
    ensures !HardBurnPossible(s) ==> r == ap
    ensures HardBurnPossible(s) ==>
              var c := s.countdown - s.onPlanetTTB;
              && (r.working <==> (c < 0.0 && ChutesSettled(s)) || (c <= 0.5 && ap.working))
              && (r.working ==> r.throttle == (if s.verticalSpeed < -5.0 then 1.0 else s.geeVSF))
              && (c > 0.5 ==> r.throttle == 0.0)
              && (!r.working && c <= 0.5 ==> r.throttle == ap.throttle)
  {
    if HardBurnPossible(s) then
      var countdown := s.countdown - s.onPlanetTTB;
      var ap1 :=
        if countdown < 0.0 && ChutesSettled(s) then
          ap.(working := true)
        else if countdown > 0.5 then ap.(working := false, throttle := 0.0)
        else ap;
      if ap1.working then ap1.(throttle := if s.verticalSpeed < -5.0 then 1.0 else s.geeVSF)
      else ap1
    else ap
  }

  /** Utils.Clamp: raise to `low`, then cap at `high`. */
  function Clamp(x: real, low: real, high: real): (r: real)
    ensures low <= high ==> low <= r <= high
    ensures low <= x <= high ==> r == x
  {
    if x < low then low else if x > high then high else x
  }

  /**
   * The final-descent throttle: near a flat target in range, or high above
   * the ground, a falling vessel throttles to stop within the countdown
   * (at least 1.1 of hover, full when the countdown is spent or the net
   * acceleration is zero) and a rising one throttles with its horizontal
   * speed; otherwise full throttle.
   */
  function SoftThrottle(cfg: Config, s: Sensors, countdown: real, flatTarget: bool): (t: real)
    requires cfg.brakeThrustThreshold != 0.0
    ensures s.geeVSF * 1.1 <= 1.0 && s.verticalSpeed < 0.0 ==> t <= 1.0
    ensures !((s.trajectoryDistance < cfg.dtol && flatTarget) || s.relAltitude > cfg.wideCheckAltitude) ==> t == 1.0
  {
    if (s.trajectoryDistance < cfg.dtol && flatTarget) || s.relAltitude > cfg.wideCheckAltitude then
      if s.verticalSpeed < 0.0 then
        if countdown > 0.01 then
          if s.maxAccel - s.g != 0.0 then
            Clamp(-s.verticalSpeed / (s.maxAccel - s.g) / ClampL(countdown, 0.01), s.geeVSF * 1.1, 1.0)
          else 1.0
        else 1.0
      else ClampH(s.horizontalSpeed / cfg.brakeThrustThreshold * s.alignmentFactor, 1.0)
    else 1.0
  }

  /** The hand-over at the end of the final descent: LandHere under LandASAP, else Approach when far, else Land. */
  function HandOver(cfg: Config, st: Settings, ap: Autopilot, s: Sensors): (r: Autopilot)
    ensures r.stage in {LandHere, Approach, Land}
    ensures r.stage == LandHere <==> st.landASAP
    ensures r.stage == Approach <==> !st.landASAP && s.vesselDistance - s.vesselRadius > cfg.dtol
    ensures r == ap.(stage := r.stage)
  {
    if st.landASAP then ap.(stage := LandHere)
    else if s.vesselDistance - s.vesselRadius > cfg.dtol then StartApproach(ap)
    else StartLand(ap)
  }

  /** The powered descent goes on: still above StopAtH vessel sizes and falling. */
  predicate StillDescending(cfg: Config, s: Sensors)
  {
    s.relAltitude > cfg.stopAtH * s.vesselSize && s.verticalSpeed < 0.0
  }

  /** SoftLanding's countdown once the burn and turn times are deducted. */
  function BurnCountdown(s: Sensors): real
  {
    s.countdown - (s.onPlanetTTB + s.turnTime)
  }

  /** The powered descent starts: the deducted countdown has run out or the vessel is already slow. */
  predicate BurnStarts(cfg: Config, s: Sensors)
  {
    BurnCountdown(s) <= 0.0 || s.srfSpeed < cfg.brakeEndSpeed
  }

  /**
   * The powered part of SoftLanding, entered with Working set and the
   * current countdown: without control authority, add the attitude
   * correction and fall back to HardLanding unless authority can be
   * regained; otherwise throttle for the final descent, and while still
   * high and falling keep Working only on a hard burn (over 0.7) or a
   * countdown under 10 s; once low or no longer falling, cut the throttle
   * and hand over.
   */
  function SoftPowered(cfg: Config, st: Settings, ap: Autopilot, s: Sensors, countdown: real): (r: Autopilot)
    requires ValidConfig(cfg) && ap.stage == SoftLanding && cfg.brakeThrustThreshold != 0.0
    ensures KeepsBookkeeping(ap, r) && r.correctionNeeded == ap.correctionNeeded
    ensures r.stage in {SoftLanding, HardLanding, LandHere, Approach, Land}
    ensures r.stage == HardLanding <==> !s.haveControlAuthority && !s.havePotentialAuthority
    ensures r.target == ap.target
    ensures !s.haveControlAuthority ==>
              r == ap.(throttle := ap.throttle + AttitudeThrust(cfg, ap.relDP, s, countdown), stage := r.stage)
    ensures s.haveControlAuthority ==>
              (r.stage == SoftLanding <==> StillDescending(cfg, s))
    ensures s.haveControlAuthority && r.stage == SoftLanding ==>
              && r.throttle == SoftThrottle(cfg, s, countdown, ap.flatTarget)
              && (r.working <==> r.throttle > 0.7 || countdown - (s.onPlanetTTB + s.turnTime) < 10.0)
              && r == ap.(throttle := r.throttle, working := r.working)
    ensures r.stage in {LandHere, Approach, Land} ==>
              r.throttle == 0.0 && r == ap.(throttle := 0.0, stage := r.stage)
    ensures r.stage == LandHere ==> st.landASAP
    ensures r.stage == Approach ==> !st.landASAP && s.vesselDistance - s.vesselRadius > cfg.dtol
    ensures r.stage == Land ==> !st.landASAP && s.vesselDistance - s.vesselRadius <= cfg.dtol
  {
    if !s.haveControlAuthority then
      var ap1 := ap.(throttle := ap.throttle + AttitudeThrust(cfg, ap.relDP, s, countdown));
      if !s.havePotentialAuthority then ap1.(stage := HardLanding) else ap1
    else
      var throttle := SoftThrottle(cfg, s, countdown, ap.flatTarget);
      if StillDescending(cfg, s) then
        var countdown' := countdown - (s.onPlanetTTB + s.turnTime);
        ap.(throttle := throttle, working := throttle > 0.7 || countdown' < 10.0)
      else HandOver(cfg, st, ap.(throttle := 0.0), s)
  }

  /**
   * The correction burns of SoftLanding before the burn, from a cut
   * throttle: the landing-site correction plus the attitude correction
   * against the countdown; correction_needed follows the site correction.
   */
  function SoftCorrections(cfg: Config, ap: Autopilot, s: Sensors): (r: Autopilot)
    requires ValidConfig(cfg)
    ensures var c := CorrectLandingSite(cfg, s, ap.correctionNeeded);
            r == ap.(throttle := c.thrust + AttitudeThrust(cfg, ap.relDP, s, s.countdown),
                     correctionNeeded := c.stillNeeded)
  {
    var c := CorrectLandingSite(cfg, s, ap.correctionNeeded);
    ap.(throttle := c.thrust + AttitudeThrust(cfg, ap.relDP, s, s.countdown), correctionNeeded := c.stillNeeded)
  }

  /**
   * SoftLanding before the burn (Working off): correct the landing site and
   * the attitude from a cut throttle, deduct burn and turn time from the
   * countdown, and start the powered descent (Working) when it has run out
   * or the vessel is already slow; otherwise wait with the correction burns
   * alone on the throttle.
   */
  function SoftBeforeBurn(cfg: Config, st: Settings, ap: Autopilot, s: Sensors): (r: Autopilot)
    requires ValidConfig(cfg) && ap.stage == SoftLanding && cfg.brakeThrustThreshold != 0.0
    ensures KeepsBookkeeping(ap, r) && r.target == ap.target
    ensures r.stage in {SoftLanding, HardLanding, LandHere, Approach, Land}
    ensures r.correctionNeeded == CorrectLandingSite(cfg, s, ap.correctionNeeded).stillNeeded
    ensures !BurnStarts(cfg, s) ==> r == SoftCorrections(cfg, ap, s).(working := false)
    ensures BurnStarts(cfg, s) ==> r == SoftPowered(cfg, st, SoftCorrections(cfg, ap, s).(working := true), s, BurnCountdown(s))
    ensures r.stage == HardLanding ==> !s.haveControlAuthority && !s.havePotentialAuthority
    ensures r.stage == LandHere ==> st.landASAP
    ensures r.stage == Approach ==> !st.landASAP && s.vesselDistance - s.vesselRadius > cfg.dtol
    ensures r.stage == Land ==> !st.landASAP && s.vesselDistance - s.vesselRadius <= cfg.dtol
  {
    var ap1 := SoftCorrections(cfg, ap, s);
    if !BurnStarts(cfg, s) then ap1.(working := false)
    else SoftPowered(cfg, st, ap1.(working := true), s, BurnCountdown(s))
  }

  /**
   * SoftLanding: throttle off; a collision-prevention course correction
   * retargets to the trajectory's surface point and drops the flat target;
   * otherwise the stage before the burn, or the powered descent once
   * Working.
   */
  function SoftLandingStage(cfg: Config, st: Settings, ap: Autopilot, s: Sensors): (r: Autopilot)
    requires ValidConfig(cfg) && ap.stage == SoftLanding && cfg.brakeThrustThreshold != 0.0
    ensures KeepsBookkeeping(ap, r)
    ensures r.stage in {SoftLanding, HardLanding, LandHere, Approach, Land}
    ensures s.courseCorrection ==>
              r == ap.(throttle := 0.0, target := Opt.Some(s.surfacePoint), flatTarget := false)
    ensures !s.courseCorrection && !ap.working && !BurnStarts(cfg, s) ==> r == SoftCorrections(cfg, ap, s)
    ensures !s.courseCorrection && ap.working ==> r == SoftPowered(cfg, st, ap.(throttle := 0.0), s, s.countdown)
    ensures !s.courseCorrection && !ap.working && BurnStarts(cfg, s) ==>
              r == SoftPowered(cfg, st, SoftCorrections(cfg, ap, s).(working := true), s, BurnCountdown(s))
    ensures r.stage == HardLanding <==>
              && !s.courseCorrection && (ap.working || BurnStarts(cfg, s))
              && !s.haveControlAuthority && !s.havePotentialAuthority
    ensures r.stage in {LandHere, Approach, Land} <==>
              && !s.courseCorrection && (ap.working || BurnStarts(cfg, s))
              && s.haveControlAuthority && !StillDescending(cfg, s)
    ensures r.stage == LandHere ==> st.landASAP
    ensures r.stage == Approach ==> !st.landASAP && s.vesselDistance - s.vesselRadius > cfg.dtol
    ensures r.stage == Land ==> !st.landASAP && s.vesselDistance - s.vesselRadius <= cfg.dtol
    ensures r.stage == HardLanding ==> !s.haveControlAuthority && !s.havePotentialAuthority
  {
    if s.courseCorrection then ap.(throttle := 0.0, target := Opt.Some(s.surfacePoint), flatTarget := false)
    else if !ap.working then SoftBeforeBurn(cfg, st, ap, s)
    else SoftPowered(cfg, st, ap.(throttle := 0.0), s, s.countdown)
  }

  /** Approach: hand over to Land once the go-to-target navigation has been switched off. */
  function ApproachStage(ap: Autopilot, s: Sensors): (r: Autopilot)
    ensures r.stage == (if s.goToTargetOn then ap.stage else Land)
    ensures r == ap.(stage := r.stage)
  {
    if !s.goToTargetOn then StartLand(ap) else ap
  }

  // ---------------------------------------------------------------------
  // do_land
  // ---------------------------------------------------------------------

  /** The outcome of one tick: the new state and whether the vessel has landed. */
  datatype Tick = Tick(ap: Autopilot, landed: bool)

  /**
   * The bookkeeping before the stage switch: the no-engines timer forces
   * HardLanding, the threshold adapts, and the relative dynamic pressure
   * and the attitude error are recorded.
   */
  function Prepare(cfg: Config, ap: Autopilot, s: Sensors): (r: Autopilot)
    requires ValidConfig(cfg) && ThresholdInBand(ap.dpThreshold, cfg)
    ensures ThresholdInBand(r.dpThreshold, cfg)
    ensures r.stage == (if s.noEngines && s.noEnginesTimerElapsed then HardLanding else ap.stage)
    ensures r.working == ap.working && r.target == ap.target && r.throttle == ap.throttle
    ensures r.correctionNeeded == ap.correctionNeeded
    ensures r.relDP * r.dpThreshold == s.dynamicPressure
    ensures var t := AdaptThreshold(cfg, ap.dpThreshold, ap.lastDP, ap.lastErr, s.dynamicPressure,
                                    s.attitudeError, s.dpUpElapsed, s.dpDownElapsed);
            r.dpThreshold == t.th && r.lastDP == t.lastDP
    ensures r.lastErr == s.attitudeError
    ensures r == ap.(stage := r.stage, dpThreshold := r.dpThreshold, lastDP := r.lastDP, relDP := r.relDP,
                     lastErr := r.lastErr)
  {
    var stage := if s.noEngines && s.noEnginesTimerElapsed then HardLanding else ap.stage;
    var t := AdaptThreshold(cfg, ap.dpThreshold, ap.lastDP, ap.lastErr, s.dynamicPressure, s.attitudeError,
                            s.dpUpElapsed, s.dpDownElapsed);
    ThresholdStaysInBand(cfg, ap.dpThreshold, ap.lastDP, ap.lastErr, s.dynamicPressure, s.attitudeError,
                         s.dpUpElapsed, s.dpDownElapsed);
    ap.(stage := stage, dpThreshold := t.th, lastDP := t.lastDP, relDP := s.dynamicPressure / t.th,
        lastErr := s.attitudeError)
  }

  /** The stage switch of do_land. */
  function StageStep(cfg: Config, st: Settings, ap: Autopilot, s: Sensors): (r: Autopilot)
    requires ValidConfig(cfg) && ap.target.Some? && Physical(s) && cfg.brakeThrustThreshold != 0.0
    ensures r.stage in Successors(ap.stage)
    ensures KeepsBookkeeping(ap, r)
  {
    match ap.stage
    case Wait => WaitStage(cfg, st, ap, s)
    case Decelerate => DecelerateStage(cfg, st, ap, s)
    case Coast => CoastStage(cfg, st, ap, s)
    case HardLanding => HardLandingStage(ap, s)
    case SoftLanding => SoftLandingStage(cfg, st, ap, s)
    case Approach => ApproachStage(ap, s)
    case _ => ap
  }

  /**
   * do_land: once landed, cut the throttle, clear the target, disengage and
   * report true; otherwise run the bookkeeping and the current stage and
   * report false. A tick moves the stage only along Successors, from the
   * stage the no-engines timer leaves (HardLanding when it fires): so
   * HardLanding, Land and LandHere are only ever left for HardLanding by
   * that timer, and None and Start are never left.
   */
  function DoLand(cfg: Config, st: Settings, ap: Autopilot, s: Sensors): (r: Tick)
    requires ValidConfig(cfg) && ThresholdInBand(ap.dpThreshold, cfg) && cfg.brakeThrustThreshold != 0.0
    requires s.landed || (ap.target.Some? && Physical(s))
    ensures r.landed <==> s.landed
    ensures s.landed ==> r.ap == ap.(throttle := 0.0, target := Opt.None, engaged := false)
    ensures ThresholdInBand(r.ap.dpThreshold, cfg)
    ensures !s.landed ==>
              r.ap.stage in Successors(if s.noEngines && s.noEnginesTimerElapsed then HardLanding else ap.stage)
    ensures !s.landed && ap.stage in {HardLanding, Land, LandHere, None, Start} ==>
              r.ap.stage == ap.stage || (s.noEngines && s.noEnginesTimerElapsed && r.ap.stage == HardLanding)
  {
    if s.landed then Tick(ap.(throttle := 0.0, target := Opt.None, engaged := false), true)
    else Tick(StageStep(cfg, st, Prepare(cfg, ap, s), s), false)
  }

  // ---------------------------------------------------------------------
  // Properties of the stage machine
  // ---------------------------------------------------------------------

  /** The stages a stage can move to within one tick of its own case. */
  function Successors(stage: Stage): (next: set<Stage>)
    ensures stage in next
  {
    match stage
    case Wait => {Wait, Decelerate}
    case Decelerate => {Decelerate, Wait, HardLanding, Coast}
    case Coast => {Coast, HardLanding, SoftLanding}
    case SoftLanding => {SoftLanding, HardLanding, LandHere, Approach, Land}
    case Approach => {Approach, Land}
    case _ => {stage}
  }

  /**
   * Wait: an obstacle within 50 m of the trajectory is checked first and
   * starts a collision-avoiding deceleration (Working) even at the braking
   * point; the braking point or a predicted overheat alone starts a normal
   * one; otherwise the stage stays Wait.
   */
  lemma WaitTransitions(cfg: Config, st: Settings, ap: Autopilot, s: Sensors)
    requires ValidConfig(cfg) && ThresholdInBand(ap.dpThreshold, cfg) && cfg.brakeThrustThreshold != 0.0
    requires !s.landed && ap.target.Some? && Physical(s)
    requires ap.stage == Wait && !(s.noEngines && s.noEnginesTimerElapsed)
    ensures var r := DoLand(cfg, st, ap, s).ap;
            var relDP := s.dynamicPressure / Prepare(cfg, ap, s).dpThreshold;
            && (Deficit(s, WaitObstacleOffset) > 0.0 ==> r.stage == Decelerate && r.working)
            && (Deficit(s, WaitObstacleOffset) <= 0.0 && (s.brakeCountdown <= relDP || s.willOverheat) ==>
                  r.stage == Decelerate && !r.working)
            && (Deficit(s, WaitObstacleOffset) <= 0.0 && !(s.brakeCountdown <= relDP || s.willOverheat) ==>
                  r.stage == Wait)
  {
    var p := Prepare(cfg, ap, s);
    assert p.relDP == s.dynamicPressure / p.dpThreshold;
    assert DoLand(cfg, st, ap, s).ap == WaitStage(cfg, st, p, s);
  }

  /**
   * A collision-avoiding deceleration returns to Wait (through
   * start_landing) exactly when no obstacle lies within 100 m of the
   * trajectory and the collision timer has passed; until then nothing
   * but the bookkeeping and the attitude correction of the throttle
   * changes.
   */
  lemma CollisionBrakingReturnsToWait(cfg: Config, st: Settings, ap: Autopilot, s: Sensors)
    requires ValidConfig(cfg) && ThresholdInBand(ap.dpThreshold, cfg) && cfg.brakeThrustThreshold != 0.0
    requires !s.landed && ap.target.Some? && Physical(s)
    requires ap.stage == Decelerate && ap.working && !(s.noEngines && s.noEnginesTimerElapsed)
    ensures var r := DoLand(cfg, st, ap, s).ap;
            && (r.stage == Wait <==> Deficit(s, CollisionObstacleOffset) <= 0.0 && s.collisionTimerPassed)
            && (r.stage == Wait ==> !r.working && !r.scanned && !r.flatTarget)
            && (r.stage != Wait ==>
                  var p := Prepare(cfg, ap, s);
                  r == p.(throttle := p.throttle + AttitudeThrust(cfg, p.relDP, s, s.countdown)))
  {
    var p := Prepare(cfg, ap, s);
    assert DoLand(cfg, st, ap, s).ap == DecelerateStage(cfg, st, p, s);
  }

  /**
   * Coast holds while time remains before the final burn, and then goes to
   * SoftLanding exactly when thrust, control authority and fuel allow a
   * powered landing, otherwise to HardLanding.
   */
  lemma CoastGate(cfg: Config, st: Settings, ap: Autopilot, s: Sensors)
    requires ValidConfig(cfg) && ThresholdInBand(ap.dpThreshold, cfg) && cfg.brakeThrustThreshold != 0.0
    requires !s.landed && ap.target.Some? && Physical(s)
    requires ap.stage == Coast && !(s.noEngines && s.noEnginesTimerElapsed)
    ensures var r := DoLand(cfg, st, ap, s).ap;
            && (CoastCountdown(s) > 0.0 ==> r.stage == Coast)
            && (CoastCountdown(s) <= 0.0 ==>
                  (r.stage == SoftLanding <==> SoftLandingFeasible(cfg, st, s))
                  && (r.stage == HardLanding <==> !SoftLandingFeasible(cfg, st, s)))
  {
    var p := Prepare(cfg, ap, s);
    assert DoLand(cfg, st, ap, s).ap == CoastStage(cfg, st, p, s);
  }

  /**
   * Coasting, the throttle holds a correction burn only when the vessel
   * cannot aerobrake and the landing-site correction fires (control
   * authority, the predicted landing outside the deadzone, and a pending
   * correction, an altitude below FlyOverAlt or a large enough error); with
   * positive acceleration, CorrectionThrustF and hover throttle, a turn
   * time and dynamic pressure that are not negative, that burn is positive.
   */
  lemma CoastCorrectionBurn(cfg: Config, st: Settings, ap: Autopilot, s: Sensors)
    requires ValidConfig(cfg) && ThresholdInBand(ap.dpThreshold, cfg) && cfg.brakeThrustThreshold != 0.0
    requires !s.landed && ap.target.Some? && Physical(s)
    requires ap.stage == Coast && !(s.noEngines && s.noEnginesTimerElapsed)
    ensures var r := DoLand(cfg, st, ap, s).ap;
            var fired := !s.canAerobrake && CorrectLandingSite(cfg, s, ap.correctionNeeded).fired;
            && (!fired ==> r.throttle == 0.0)
            && ((fired && s.maxAccel > 0.0 && cfg.correctionThrustF > 0.0 && s.geeVSF > 0.0
                 && s.turnTime >= 0.0 && s.dynamicPressure >= 0.0) ==> r.throttle > 0.0)
  {
    var p := Prepare(cfg, ap, s);
    assert DoLand(cfg, st, ap, s).ap == CoastStage(cfg, st, p, s);
    assert p.correctionNeeded == ap.correctionNeeded;
    if s.dynamicPressure >= 0.0 {
      assert p.relDP >= 0.0 by {
        assert p.dpThreshold > 0.0;
        assert p.relDP * p.dpThreshold >= 0.0;
      }
    }
  }

  /**
   * SoftLanding exits only to HardLanding (no control authority, actual or
   * potential), LandHere (LandASAP), Approach (more than Dtol beyond the
   * vessel's radius from the target) or Land; Approach exits only to Land,
   * once the go-to-target navigation is off.
   */
  lemma FinalStageExits(cfg: Config, st: Settings, ap: Autopilot, s: Sensors)
    requires ValidConfig(cfg) && ThresholdInBand(ap.dpThreshold, cfg) && cfg.brakeThrustThreshold != 0.0
    requires !s.landed && ap.target.Some? && Physical(s)
    requires ap.stage in {SoftLanding, Approach} && !(s.noEngines && s.noEnginesTimerElapsed)
    ensures var r := DoLand(cfg, st, ap, s).ap;
            && (ap.stage == SoftLanding ==>
                  && (r.stage == HardLanding ==> !s.haveControlAuthority && !s.havePotentialAuthority)
                  && (r.stage == LandHere ==> st.landASAP)
                  && (r.stage == Approach ==> !st.landASAP && s.vesselDistance - s.vesselRadius > cfg.dtol)
                  && (r.stage == Land ==> !st.landASAP && s.vesselDistance - s.vesselRadius <= cfg.dtol))
            && (ap.stage == Approach ==> (r.stage == Land <==> !s.goToTargetOn) && r.stage in {Approach, Land})
  {
    var p := Prepare(cfg, ap, s);
    if ap.stage == SoftLanding {
      assert DoLand(cfg, st, ap, s).ap == SoftLandingStage(cfg, st, p, s);
    } else {
      assert DoLand(cfg, st, ap, s).ap == ApproachStage(p, s);
    }
  }

  /**
   * A normal deceleration that runs short of fuel (under 3 s at full flow,
   * not overheating) always ends in HardLanding, and one that is
   * overheating keeps braking.
   */
  lemma DecelerationFuelAndHeat(cfg: Config, st: Settings, ap: Autopilot, s: Sensors)
    requires ValidConfig(cfg) && ThresholdInBand(ap.dpThreshold, cfg) && cfg.brakeThrustThreshold != 0.0
    requires !s.landed && ap.target.Some? && Physical(s)
    requires ap.stage == Decelerate && !ap.working && !(s.noEngines && s.noEnginesTimerElapsed)
    ensures var r := DoLand(cfg, st, ap, s).ap;
            && (!s.overheating && FuelForUnderThreeSeconds(s.fuelMass, s.maxMassFlow) ==> r.stage == HardLanding)
            && (s.overheating && !s.vesselAfterTarget ==> r.stage == Decelerate && r.throttle == 1.0)
  {
    var p := Prepare(cfg, ap, s);
    assert DoLand(cfg, st, ap, s).ap == DecelerateStage(cfg, st, p, s);
  }

  /**
   * A deceleration short of the target that keeps braking never coasts:
   * its throttle is always positive, so the burn continues until the
   * braking condition itself goes away.
   */
  lemma BrakingShortOfTargetContinues(cfg: Config, st: Settings, ap: Autopilot, s: Sensors)
    requires ValidConfig(cfg) && ThresholdInBand(ap.dpThreshold, cfg) && cfg.brakeThrustThreshold != 0.0
    requires !s.landed && ap.target.Some? && Physical(s)
    requires ap.stage == Decelerate && !ap.working && !(s.noEngines && s.noEnginesTimerElapsed)
    requires !(!s.overheating && FuelForUnderThreeSeconds(s.fuelMass, s.maxMassFlow))
    requires !s.vesselAfterTarget && KeepBraking(cfg, s)
    ensures DoLand(cfg, st, ap, s).ap.stage == Decelerate
    ensures DoLand(cfg, st, ap, s).ap.throttle > 0.0
  {
    var p := Prepare(cfg, ap, s);
    assert DoLand(cfg, st, ap, s).ap == DecelerateStage(cfg, st, p, s);
  }
}
