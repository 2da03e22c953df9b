# Landing guidance of ThrottleControlledAvionics, in Dafny

This project models the decision logic that ThrottleControlledAvionics
(a Kerbal Space Program autopilot) uses to land a vessel from orbit on a
chosen spot, together with the terrain radar that watches for obstacles on
the way. It also proves properties of that logic.

- `LandingTrajectoryAutopilot.do_land` is a stage machine:
  - Wait coasts to the braking point.
  - Decelerate burns, or backs off from terrain the trajectory would hit.
  - Coast falls to the final burn.
  - SoftLanding is the powered descent. HardLanding is the emergency descent.
  - Approach, Land and LandHere hand over to other autopilots.
- The dynamic-pressure threshold is adapted by two timers. The fuel and
  accuracy gates decide whether a landing is attempted at all.
- `obstacle_between` bisects the braking window for the lowest clearance
  above the terrain. `biggest_obstacle_searcher` runs it over a hundred
  buckets, spread across frames.
- The PQS scanner searches for a flat landing site, a few optimizer points
  per frame.
- The radar casts a sweep of three rays per frame and refines the sweep
  angle around a hit. It keeps the best and the detected hit and queues
  side manoeuvres. The PQS altimeter probes the surface height ahead.

Floating point is modelled by exact reals. The sentinels `double.MaxValue`,
`double.MinValue`, `float.MaxValue` and `float.MinValue` are kept as
constants, because branches compare against them.

The following enter as parameters:
- the vessel's physics and the game's terrain and ray casts;
- countdowns, fuel figures and control authority;
- the CDOS optimizer's sequence of points;
- whether each `Timer` has elapsed.

Files (one module each):
- `numeric.dfy`: sentinels, `ClampL`/`ClampH`, vectors.
- `optional.dfy`: `Option`.
- `obstacle_search.dfy`: `obstacle_between`, `obstacle_ahead`, the bucket searcher.
- `flat_site_scanner.dfy`: `PQS_Scanner` and `PQS_Scanner_CDOS`.
- `radar_sweep.dfy`: `TerrainPoint`, `Ray` and `Sweep`.
- `altimeter.dfy`: `PQS_Altimeter`.
- `radar.dfy`: `Radar` configuration, `rewind`, `reset` and `Update`.
- `landing.dfy`: the landing stage machine.

## Model

| member | source | states |
|---|---|---|
| ObstacleSearch.ObstacleBetween | Modules/Orbit/LandingTrajectoryAutopilot.cs:285-299 | A window of at most 0.01 s is never probed and gives offset minus the initial distance 1. Otherwise the result is offset minus the clearance at some instant inside the window. |
| ObstacleSearch.ObstacleAhead | Modules/Orbit/LandingTrajectoryAutopilot.cs:302-306 | -1 without a trajectory. Otherwise the bisection over StartUT..BrakeEndUT. |
| ObstacleSearch.ChoiceOnGrid | Modules/Orbit/LandingTrajectoryAutopilot.cs:291-294 | From a point on the 2·dT grid, the chosen probe stays inside the window, reads the clearance there, and lies on the dT grid. |
| ObstacleSearch.TraceStaysInWindow | Modules/Orbit/LandingTrajectoryAutopilot.cs:289-297 | Every probe of the loop lies inside [start, stop] and records the clearance at its instant. |
| ObstacleSearch.ObstacleBetweenProbesInWindow | Modules/Orbit/LandingTrajectoryAutopilot.cs:285-299 | The probes of obstacle_between never leave the window. |
| ObstacleSearch.TraceResult | Modules/Orbit/LandingTrajectoryAutopilot.cs:289-298 | The loop stops at the first probe below the offset or when the step drops to 0.01. The result is offset minus the last probe's clearance. Every earlier probe cleared the offset. |
| ObstacleSearch.ObstacleBetweenResult | Modules/Orbit/LandingTrajectoryAutopilot.cs:285-299 | No probes iff the window is at most 0.01 s. The result is positive iff some probe was below the offset. |
| ObstacleSearch.ObstacleBetweenClearTrack | Modules/Orbit/LandingTrajectoryAutopilot.cs:295-298 | When every probe clears the offset, the reported obstacle is not positive. |
| ObstacleSearch.ObstacleBetweenWitness | Modules/Orbit/LandingTrajectoryAutopilot.cs:285-299 | For a window over 0.01 s, the result is offset minus the clearance at some instant of the window. |
| ObstacleSearch.TraceStepsHalve | Modules/Orbit/LandingTrajectoryAutopilot.cs:289-297 | The first move spans the initial step, and each later move spans half the move before it. |
| ObstacleSearch.ObstacleBetweenStepsHalve | Modules/Orbit/LandingTrajectoryAutopilot.cs:287-297 | The moves of obstacle_between start with the whole window and halve at every iteration. |
| ObstacleSearch.NewSearcher | Modules/Orbit/LandingTrajectoryAutopilot.cs:309-316 | The searcher starts at StartUT with running maximum -1. Its buckets are a hundredth of the window. |
| ObstacleSearch.Step | Modules/Orbit/LandingTrajectoryAutopilot.cs:321-324 | The bucket moves forward by exactly one bucket length. The window, bucket length and offset are unchanged. The running maximum absorbs the bucket's deficit. |
| ObstacleSearch.MoveNext | Modules/Orbit/LandingTrajectoryAutopilot.cs:318-325 | The enumerator yields iff the bucket start is before BrakeEndUT. |
| ObstacleSearch.RunningMaxNeverDecreases | Modules/Orbit/LandingTrajectoryAutopilot.cs:321-324 | A yield never lowers the running maximum. The maximum covers the current bucket's deficit and is either the old value or that deficit. The yielded value is the maximum. |
| ObstacleSearch.AdvancePositions | Modules/Orbit/LandingTrajectoryAutopilot.cs:318-325 | After k yields the current bucket is the k-th one. The window and the bucket length are unchanged. |
| ObstacleSearch.AdvanceIsRunningMax | Modules/Orbit/LandingTrajectoryAutopilot.cs:318-325 | After k yields the running maximum is the maximum of -1 and the first k bucket deficits. |
| ObstacleSearch.ScanHasHundredBuckets | Modules/Orbit/LandingTrajectoryAutopilot.cs:311-318 | A fresh searcher yields exactly 100 times on a non-empty window, and never on an empty one. |
| ObstacleSearch.BucketsCoverWindow | Modules/Orbit/LandingTrajectoryAutopilot.cs:311-318 | The k-th bucket starts before BrakeEndUT iff the window is non-empty and k < 100. |
| ObstacleSearch.FreshScanYieldsRunningMax | Modules/Orbit/LandingTrajectoryAutopilot.cs:309-327 | From a fresh searcher, k yields hold the maximum of the first k bucket deficits. |
| ObstacleSearch.ReadAndAdvance | Modules/Orbit/LandingTrajectoryAutopilot.cs:340-343 | Reports the searcher's current value. It continues iff another bucket remains, probing the trajectory the enumerator captured, and otherwise drops the searcher. |
| ObstacleSearch.FindBiggestObstacleAhead | Modules/Orbit/LandingTrajectoryAutopilot.cs:329-344 | Without a trajectory, false and -1. A running search reads and advances the enumerator over the trajectory and offset it captured when created, whatever the current ones are. An empty window keeps the exhausted searcher and reports false and -1. |
| ObstacleSearch.FirstCallReportsFirstBucket | Modules/Orbit/LandingTrajectoryAutopilot.cs:333-340 | The first call on a non-empty window continues and reports the maximum of -1 and the first bucket's deficit. It stores the search two buckets in, over the trajectory it was given. |
| ObstacleSearch.LaterCallAdvances | Modules/Orbit/LandingTrajectoryAutopilot.cs:309-344 | A call on a stored search that has probed k buckets reports the running maximum that search holds, whatever trajectory the call is given. The search continues iff k < 100, and the stored search then has probed k + 1 buckets of the trajectory it was created with. |
| ObstacleSearch.LaterCallReportsRunningMax | Modules/Orbit/LandingTrajectoryAutopilot.cs:309-344 | A call on a search that has probed k buckets reports the biggest deficit of those k buckets. It continues iff k < 100 and stores the search one bucket further. The call's own trajectory, window and offset play no part. |
| ObstacleSearch.CallsFromRunning | Modules/Orbit/LandingTrajectoryAutopilot.cs:309-344 | Successive calls on a search that has probed k buckets: the last reports the biggest deficit of the buckets probed so far, and continues iff fewer than 100 were. |
| ObstacleSearch.SuccessiveCallsReportRunningMax | Modules/Orbit/LandingTrajectoryAutopilot.cs:309-344 | From no searcher, the k-th successive call (k <= 100) reports the biggest deficit, against -1, of the first k buckets of the trajectory the first call saw. The search stops exactly at the hundredth call, however the trajectory changed in between. |
| FlatSiteScanner.CornerDeltas | Modules/Orbit/LandingTrajectoryAutopilot.cs:1021-1024 | Four corner deltas, each the absolute altitude difference between a corner ±half away and the centre. |
| FlatSiteScanner.AltitudeDeltaZero | Modules/Orbit/LandingTrajectoryAutopilot.cs:1010-1011 | An altitude delta is never negative. It is zero iff the corner is at the centre's altitude. |
| FlatSiteScanner.CalculateUnevenness | Modules/Orbit/LandingTrajectoryAutopilot.cs:1013-1028 | Infinite iff the point is on water. Otherwise not negative, and zero iff all four corners are level with the centre. |
| FlatSiteScanner.UnevennessBoundsEachCorner | Modules/Orbit/LandingTrajectoryAutopilot.cs:1021-1027 | The unevenness is at least every single corner delta divided by the vessel size. |
| FlatSiteScanner.CornerDeltasLevel | Modules/Orbit/LandingTrajectoryAutopilot.cs:1010-1026 | All four deltas are zero iff the site is level. |
| FlatSiteScanner.Iterate | Modules/Orbit/LandingTrajectoryAutopilot.cs:1070-1072 | One optimizer step consumes exactly the next pending point and makes it the best. |
| FlatSiteScanner.NewScanner | Modules/Orbit/LandingTrajectoryAutopilot.cs:989-993 | A new scanner is idle, has no flat region and no distance limit, and keeps the given maximum unevenness. |
| FlatSiteScanner.Reset | Modules/Orbit/LandingTrajectoryAutopilot.cs:995-999 | Reset makes the scanner idle, clears the flat region and sets the best unevenness to double.MaxValue. The limits are kept. |
| FlatSiteScanner.Start | Modules/Orbit/LandingTrajectoryAutopilot.cs:1001-1008 | Start resets, then takes the start point and points per frame. The cell delta is the vessel size over the body radius in degrees, and half is half of it. The scanner is busy with the given run. |
| FlatSiteScanner.GoodPoint | Modules/Orbit/LandingTrajectoryAutopilot.cs:1031-1034 | Every point is good without a distance limit. Otherwise a good point is closer to the start than the limit. |
| FlatSiteScanner.GoodPointWidens | Modules/Orbit/LandingTrajectoryAutopilot.cs:1031-1034 | Raising the distance limit keeps every good point good. |
| FlatSiteScanner.Progress | Modules/Orbit/LandingTrajectoryAutopilot.cs:1047-1048 | 0 when idle and never above 1. It is 1 once the best unevenness is within the maximum, and not negative for a non-negative best. |
| FlatSiteScanner.ProgressMonotone | Modules/Orbit/LandingTrajectoryAutopilot.cs:1047-1048 | A better (lower) best unevenness never shows less progress. |
| FlatSiteScanner.Publish | Modules/Orbit/LandingTrajectoryAutopilot.cs:1072-1075 | On completion the flat region is the surface point of the optimizer's best point, and the best unevenness is its score. |
| FlatSiteScanner.ScanFrom | Modules/Orbit/LandingTrajectoryAutopilot.cs:1070-1082 | A frame consumes min(budget, pending) points. It reports more work iff the pending points covered the budget. When the optimizer runs dry it publishes the best point. |
| FlatSiteScanner.Scan | Modules/Orbit/LandingTrajectoryAutopilot.cs:1066-1083 | An idle scanner reports false and is unchanged. Otherwise the frame's consumption, the continue flag and the publication are as in ScanFrom. Limits and start are kept. |
| FlatSiteScanner.ScanFinishedIsStable | Modules/Orbit/LandingTrajectoryAutopilot.cs:1066-1077 | After a scan has finished, scanning again reports false and changes nothing. |
| FlatSiteScanner.ScanSpendsWholeBudget | Modules/Orbit/LandingTrajectoryAutopilot.cs:1070-1082 | With at least a frame's worth of points pending, the frame continues and consumes exactly points_per_frame of them. |
| Sweeps.SurfacePointAt | Modules/Planet/Radar.cs:323-332 | The point is at the given position and at the surface height, raised to 0 over an ocean. |
| Sweeps.DistanceTo | Modules/Planet/Radar.cs:336-337 | -1 for an invalid point, otherwise the norm of the offset. With a non-negative norm, negative iff the point is invalid. |
| Sweeps.PointOrderIsByAltitude | Modules/Planet/Radar.cs:342-345 | `<` and `>` are converse, antisymmetric and total up to equal altitude. A reset point is below every valid point above double.MinValue. |
| Sweeps.Classify | Modules/Planet/Radar.cs:480-486 | The impossible case happens iff no ray hit. A single side hit is Horizontal. Otherwise a centre hit or two side hits are Vertical. The chosen ray is valid. |
| Sweeps.Cast | Modules/Planet/Radar.cs:465-490 | No transform leaves a reset sweep. The sweep is valid iff some ray hit. A valid sweep's altitude is the vessel altitude minus the smallest ray drop, and its obstacle has that altitude. An invalid sweep is reset. |
| Sweeps.CastManeuverRules | Modules/Planet/Radar.cs:482-485 | Which ray becomes the obstacle and which manoeuvre follows, case by case, including the nearer of two side hits. |
| Sweeps.CastAltitudeIsHighestHit | Modules/Planet/Radar.cs:475-480 | A valid sweep's altitude is at least that of every hit. |
| Sweeps.CastObstacleValid | Modules/Planet/Radar.cs:475-489 | A valid sweep whose altitude is in float range has a valid obstacle point. |
| Sweeps.SweepOrder | Modules/Planet/Radar.cs:498-499 | `<` and `>` on sweeps are converse. An invalid sweep is below everything. Between valid sweeps the order is by altitude, and a valid sweep is never below an invalid one. |
| Altimeter.Rewind | Modules/Planet/Radar.cs:523-528 | Look-ahead time and delta return to 1 and the best point is reset. The obstacle and current point are kept. |
| Altimeter.Restart | Modules/Planet/Radar.cs:536-546 | Past the look-ahead limit the obstacle becomes the best point, unconditionally. With a step under 0.1 it becomes the best point only when that is valid. Both restart the probe. |
| Altimeter.ProbeHeightAhead | Modules/Planet/Radar.cs:533-556 | Without terrain nothing changes. The probe reads the surface at the look-ahead time, and best and obstacle only rise to it. Near the surface the probe steps back and halves the step; otherwise it steps forward. |
| Altimeter.NewAltimeterBookkeeping | Modules/Planet/Radar.cs:510-528 | A new altimeter satisfies the step bookkeeping: step between 0.05 and 1, look-ahead time at least the step and at most max(limit, 1) + 1. |
| Altimeter.ProbeKeepsBookkeeping | Modules/Planet/Radar.cs:533-556 | Every probe keeps the step bookkeeping, so the look-ahead time stays positive. |
| Altimeter.ObstacleOnlyRisesBetweenRestarts | Modules/Planet/Radar.cs:548-549 | Without a restart the obstacle and best point never fall. A new obstacle is the best point and higher. |
| Altimeter.RestartProbesOneSecondAhead | Modules/Planet/Radar.cs:536-548 | After a restart the probe reads the surface one second ahead, and any real point becomes the best. |
| Radar.InitConfig | Modules/Planet/Radar.cs:42-48 | The view angles are capped at 80 degrees. The angle step times the number of rays spans both view angles. |
| Radar.DefaultConfigStep | Modules/Planet/Radar.cs:26-31 | With the shipped defaults the sweep steps by one degree. |
| Radar.Rewind | Modules/Planet/Radar.cs:154-165 | The view angle goes back to the top with the configured step. Little steps, last-hit and side-collision flags and the hits are cleared; the detected hit is kept. The side manoeuvre is zeroed only when there is no side collision and the manoeuvre timer fires. |
| Radar.Reset | Modules/Planet/Radar.cs:143-152 | Reset rewinds and also clears the detected hit, the collision speed, the distance and time ahead, and the altitude ahead. |
| Radar.InitialState | Modules/Planet/Radar.cs:99-106 | After Init the step is the configured one and no hit is held. |
| Radar.CheckBoundaries | Modules/Planet/Radar.cs:178-194 | Past the bottom of the view, detect the best hit and rewind, or reset without one. When over-refined, detect the best hit if valid and rewind. Otherwise nothing changes. |
| Radar.MergeSideManeuver | Modules/Planet/Radar.cs:236-238 | A new avoidance manoeuvre replaces the queued one iff it agrees in direction or is larger. |
| Radar.Prepared | Modules/Planet/Radar.cs:178-218 | The sweep of this frame is the cast of its three rays. |
| Radar.Update | Modules/Planet/Radar.cs:167-308 | The altimeter probes once per frame. The little-step counter counts frames whose step is below the configured one. The view angle advances by the step at the end. |
| Radar.UpdateKeepsStep | Modules/Planet/Radar.cs:244-261 | The step stays positive and at most the configured one. A frame keeps it or halves it. |
| Radar.InitialStep | Modules/Planet/Radar.cs:99-106 | The initial state satisfies the step invariant. |
| Radar.DirectHitRefines | Modules/Planet/Radar.cs:242-254 | A direct hit sets last-hit. The first hit steps back one step and halves the step. A repeated hit steps back two steps. |
| Radar.MissAfterHitHalves | Modules/Planet/Radar.cs:256-260 | A miss clears last-hit and halves the step iff the previous frame hit. |
| Radar.LittleStepsCountRefinedTicks | Modules/Planet/Radar.cs:261 | The little-step counter grows by one exactly on frames ending with a step below the configured one. |
| Radar.BestAndDetectedOnlyRise | Modules/Planet/Radar.cs:244-245 | The best hit is replaced only by a higher sweep. The detected hit only by a valid, higher best hit. The best altitude never falls. |
| Radar.SideManeuverRules | Modules/Planet/Radar.cs:163-238 | The side manoeuvre changes only on a side hit above the threshold, with an avoidance that agrees or is larger. It is zeroed only by a rewind with no side collision when the manoeuvre timer fires. |
| Radar.PassRestarts | Modules/Planet/Radar.cs:178-194 | A pass past the view or over-refined restarts from the top with the configured step and no best hit. The detected hit becomes the best hit, is cleared, or is kept. |
| Radar.ViewAngleBounded | Modules/Planet/Radar.cs:178-308 | Under the step invariant, the view angle never exceeds the bottom of the view (or the top) by more than one configured step. |
| Landing.AdaptThreshold | Modules/Orbit/LandingTrajectoryAutopilot.cs:605-612 | Without dynamic pressure the threshold returns to the maximum. The up timer lowers it by 10%, stopping at the minimum: strictly lower when above the minimum. Otherwise the down timer raises it by 10%, stopping at the maximum. Each records the pressure. When neither timer fires, threshold and recorded pressure stay as they were. |
| Landing.ThresholdStaysInBand | Modules/Orbit/LandingTrajectoryAutopilot.cs:145-154 | The threshold never leaves [MinDPressure, MaxDPressure]. |
| Landing.NeededHoverTime | Modules/Orbit/LandingTrajectoryAutopilot.cs:737 | The hover reserve is the whole threshold, or a fifth of it under LandASAP. |
| Landing.CheckInitialTrajectory | Modules/Orbit/LandingTrajectoryAutopilot.cs:197-224 | Accepted iff the predicted landing is within Dtol and the remaining hover time strictly exceeds the reserve, or propellant is infinite. |
| Landing.FuelGatesAgree | Modules/Orbit/LandingTrajectoryAutopilot.cs:197-205 | On the same fuel figures (the two gates compute `fuel_needed` differently), passing the initial check implies passing Coast's fuel test (lines 734-744). A hover time exactly equal to the reserve passes Coast but not the initial check. |
| Landing.ContinueCalculation | Modules/Orbit/LandingTrajectoryAutopilot.cs:127-133 | The optimisation continues while there is no best or previous trajectory. With both, it continues exactly when the best trajectory misses by more than Dtol and the last step changed DeltaR or DeltaFi by more than 1e-5. |
| Landing.CalculationStops | Modules/Orbit/LandingTrajectoryAutopilot.cs:127-133 | It stops when the best trajectory is within Dtol or both orbit parameters changed by at most 1e-5. |
| Landing.NewAutopilot | Modules/Orbit/LandingTrajectoryAutopilot.cs:159-166 | Constructed in stage None with the threshold in band, an idle scanner, and a third of the global unevenness limit. |
| Landing.ResetAutopilot | Modules/Orbit/LandingTrajectoryAutopilot.cs:168-181 | Reset returns to stage None with an idle scanner, the threshold in band, and the records, Working and scanned cleared. The flat-target flag is kept. |
| Landing.AttitudeThrust | Modules/Orbit/LandingTrajectoryAutopilot.cs:432-445 | correct_attitude_with_thrusters adds nothing unless its steering, attitude-error and authority conditions hold. The increment is at most full throttle, never negative for a turn time and 1 + rel_dP that are not negative, and positive when it fires with both positive. |
| Landing.CorrectLandingSite | Modules/Orbit/LandingTrajectoryAutopilot.cs:463-481 | correct_landing_site fires iff there is control authority, the predicted landing is outside the deadzone, and a correction is pending, the altitude is below FlyOverAlt, or the error exceeds Dtol scaled by the altitude over FlyOverAlt. Its burn is at most 0.9 of hover throttle and positive with positive acceleration, factor and hover throttle. The correction stays pending iff it fired with the error over Dtol. |
| Landing.SiteScanner | Modules/Orbit/LandingTrajectoryAutopilot.cs:509-512 | An idle scanner is started around the target with the frame budget, and its MaxDist is the altitude times tan(ScanningAngle/2). A running scanner is used as it is. |
| Landing.ScanSettles | Modules/Orbit/LandingTrajectoryAutopilot.cs:508-535 | A call on an unscanned site leaves the scanner running; once a call marks the site scanned, every later call changes nothing. |
| Landing.ScanForLandingSite | Modules/Orbit/LandingTrajectoryAutopilot.cs:506-535 | Changes nothing once scanned or once a flat region is known. Otherwise one scan frame runs on the started-or-running scanner, and the site counts as scanned exactly when that scan finishes. It sets the flat-target flag exactly as the region/vessel test says. A flat region elsewhere than the target always becomes the new non-vessel target, and only such a region does. Stage and throttle are kept. |
| Landing.WaitStage | Modules/Orbit/LandingTrajectoryAutopilot.cs:624-650 | The throttle is cut, and holds exactly the attitude-correction increment computed against the countdown to the braking point. Leaves for Decelerate iff an obstacle lies within 50 m, or the braking point is reached, or overheating is predicted. Working iff it was the obstacle. |
| Landing.BrakeThrottle | Modules/Orbit/LandingTrajectoryAutopilot.cs:698-700 | The braking throttle short of the target is positive and at most full. |
| Landing.CollisionBraking | Modules/Orbit/LandingTrajectoryAutopilot.cs:653-662 | The attitude-correction increment is added to the throttle. Returns to Wait through start_landing iff no obstacle lies within 100 m and the collision timer passed; otherwise nothing else changes. |
| Landing.NormalDeceleration | Modules/Orbit/LandingTrajectoryAutopilot.cs:664-706 | HardLanding iff not overheating with under 3 s of fuel. Coast iff the fuel test passes and, past the target, the executor is done, or short of it, braking is no longer needed. Never Wait. |
| Landing.DecelerateStage | Modules/Orbit/LandingTrajectoryAutopilot.cs:651-706 | A collision burn adds the attitude correction and returns to Wait iff no obstacle lies within 100 m and the collision timer passed. HardLanding iff a normal deceleration is not overheating with under 3 s of fuel. A normal deceleration coasts iff the fuel test passes and the executor is done (past the target) or braking is no longer needed (short of it). |
| Landing.CoastCorrection | Modules/Orbit/LandingTrajectoryAutopilot.cs:709-713 | From a cut throttle: nothing burns and the pending correction is kept when the vessel can aerobrake. Otherwise the landing-site burn, plus the attitude correction when that fired, and the pending correction updated. Nothing else changes. |
| Landing.CoastStage | Modules/Orbit/LandingTrajectoryAutopilot.cs:707-748 | The throttle holds only Coast's correction burns. Stays while time remains. Then Working is cleared, and it goes to SoftLanding iff thrust, authority and fuel allow, otherwise HardLanding. |
| Landing.HardLandingStage | Modules/Orbit/LandingTrajectoryAutopilot.cs:749-779 | The stage never changes, and only Working and the throttle may. Without thrust, impact speed over 4 m/s or authority, nothing changes. Otherwise Working is set exactly when the countdown less the burn time is negative and no parachute is still to open, or is kept while at most 0.5 s remain. More than 0.5 s left cuts the throttle. A working burn is full throttle when falling faster than 5 m/s, otherwise hover. |
| Landing.SoftThrottle | Modules/Orbit/LandingTrajectoryAutopilot.cs:870-882 | Full throttle away from a flat target below WideCheckAltitude. A falling vessel whose hover throttle allows it never exceeds full throttle. |
| Landing.HandOver | Modules/Orbit/LandingTrajectoryAutopilot.cs:894-901 | LandHere iff LandASAP. Approach iff farther than Dtol beyond the vessel radius. Land otherwise. |
| Landing.SoftPowered | Modules/Orbit/LandingTrajectoryAutopilot.cs:856-901 | Falls back to HardLanding iff there is no control authority, actual or potential. Without authority only the attitude correction is added to the throttle. With authority it stays iff above StopAtH vessel sizes and falling; then the throttle is the final-descent throttle and Working holds iff that throttle exceeds 0.7 or the deducted countdown is under 10 s. Otherwise it cuts the throttle and hands over, changing nothing else. |
| Landing.SoftBeforeBurn | Modules/Orbit/LandingTrajectoryAutopilot.cs:842-901 | The landing-site and attitude corrections run from a cut throttle. The powered descent starts with Working, on the countdown less burn and turn time, exactly when that countdown has run out or the vessel is slow. Otherwise it waits with those burns alone on the throttle. Every exit of the powered descent carries its condition. |
| Landing.SoftLandingStage | Modules/Orbit/LandingTrajectoryAutopilot.cs:820-901 | A course correction retargets to the surface point and drops the flat target. Waiting for the burn, the throttle holds only the correction burns. Once Working, or when the burn starts, the powered descent runs. It falls back to HardLanding exactly when the descent is powered and all control authority is gone. It hands over exactly when the descent is powered, authority is there and the vessel is low or no longer falling. |
| Landing.ApproachStage | Modules/Orbit/LandingTrajectoryAutopilot.cs:914-917 | Goes to Land iff go-to-target navigation is off. Nothing else changes. |
| Landing.Prepare | Modules/Orbit/LandingTrajectoryAutopilot.cs:603-614 | The no-engines timer forces HardLanding. The threshold and recorded pressure are the adapted ones and stay in band. Relative pressure times threshold is the dynamic pressure, the attitude error is recorded, and nothing else changes. |
| Landing.StageStep | Modules/Orbit/LandingTrajectoryAutopilot.cs:622-923 | The stage moves only along the stage graph, and the pressure bookkeeping is untouched. |
| Landing.DoLand | Modules/Orbit/LandingTrajectoryAutopilot.cs:590-924 | Reports landed iff landed; then the throttle is cut, the target cleared and AP2 disengaged. Otherwise the stage follows the graph from the stage the no-engines timer leaves. HardLanding, Land, LandHere, None and Start are never left except for HardLanding by that timer. |
| Landing.WaitTransitions | Modules/Orbit/LandingTrajectoryAutopilot.cs:640-644 | The obstacle test has priority and gives a Working deceleration. The braking point or overheat alone gives a normal one. Otherwise the stage stays Wait. |
| Landing.CollisionBrakingReturnsToWait | Modules/Orbit/LandingTrajectoryAutopilot.cs:653-662 | A collision burn returns to Wait through start_landing iff the 100 m obstacle test is clear and the collision timer passed. Until then only the bookkeeping and the attitude-correction increment of the throttle change. |
| Landing.CoastCorrectionBurn | Modules/Orbit/LandingTrajectoryAutopilot.cs:707-713 | Coasting, the throttle is zero unless the vessel cannot aerobrake and the landing-site correction fires. With positive acceleration, CorrectionThrustF and hover throttle, and turn time and dynamic pressure not negative, a firing correction gives a positive throttle. |
| Landing.CoastGate | Modules/Orbit/LandingTrajectoryAutopilot.cs:716-746 | Coast holds while time remains, then goes to SoftLanding iff a powered landing is feasible, and to HardLanding iff not. |
| Landing.FinalStageExits | Modules/Orbit/LandingTrajectoryAutopilot.cs:820-917 | SoftLanding leaves only for HardLanding without authority, LandHere under LandASAP, or Approach/Land by distance. Approach leaves only for Land, iff navigation is off. |
| Landing.DecelerationFuelAndHeat | Modules/Orbit/LandingTrajectoryAutopilot.cs:669-694 | Under 3 s of fuel while not overheating always ends in HardLanding. Overheating short of the target keeps braking at full throttle. |
| Landing.BrakingShortOfTargetContinues | Modules/Orbit/LandingTrajectoryAutopilot.cs:683-703 | A braking burn short of the target never coasts. Its throttle is positive, so line 705 is not reached from that branch. |

## Left out

- Orbit prediction, trajectory optimisation and manoeuvre execution (`LandingTrajectory`, `ManeuverAutopilot`, `update_trajectory`, the braking offset) are outside this model. Their results are `Sensors` fields: countdowns, distances, fuel needed, `DeltaR`, and the executor's busy flag.
- Heating: `will_overheat`, `is_overheating` and `final_temp` become booleans. Their exponential temperature formula is floating-point physics.
- Thrust direction, warp, brakes, parachutes, status messages and GUI (`nose_to_target`, `correction_direction`, `ATC.SetThrustDirW`, `brake_with_drag`, `StageTimer`, `Status`, `Message`) are not modelled. They command other systems and do not feed back into the stage decision within the tick. The throttle increments of `correct_attitude_with_thrusters` and `correct_landing_site` are modelled.
- Landing.SoftLandingStage: in the collision-avoiding course correction (lines 830-840) the throttle executor is given a velocity change to make (`THR.DeltaV`); only the cut throttle is modelled, not that velocity command. The `THR.CorrectThrottle` flag (lines 775 and 870) is also not modelled; it switches the executor's own throttle adjustment, which is outside this model.
- Landing.DecelerateStage: the maneuver executor's own throttle commands (the climb at line 658 and the braking burn at line 680) are not part of the modelled throttle; the executor is outside this model and only its busy flag is read.
- Landing.ValidConfig: Dtol and FlyOverAlt must be positive and MaxTimeToAlignment at least 1, because the correction burns divide by them. CorrectLandingSite reads a zero maximum acceleration as the IEEE +infinity, so the capped burn.
- `approach()` and `land()` also switch on other autopilots, and set the vessel target's radius to 7. Only the stage change is modelled; the next tick's `goToTargetOn` reading stands for the navigation state.
- `Timer` (a utility of the wider code base, not part of this model) becomes an "elapsed" boolean per timer. `RunIf(c)` fires iff c holds and the flag is set. DecelerationTimer is reset on every tick with control authority, so it counts as run out only without authority.
- The CDOS optimizer's internals are outside this model. The optimiser is the sequence of best points its enumerator produces.
- `distance_from_ground` and terrain altitude are an abstract clearance function. `Coordinates.SurfacePoint`/`DistanceTo` are abstract terrain functions. Raycasts and the PQS are outside this model, and rays are given as hit records.
- Radar: the forward ray, the obstacle merge, the collision speed and distance and time ahead, and the course-correction dV (Radar.cs:262-306 except the altimeter probe) are not modelled. They are floating-point vector geometry feeding other modules. The direction and maximum distance of the sweep (lines 196-216) are also left out; only the cast's result matters to the decision logic.
- Radar.InitConfig: requires a non-zero ray count. The source divides the view range by NumRays (Modules/Planet/Radar.cs line 47) without a guard, and a zero count gives an infinite or NaN step in floating point; the reals have no such value, and every later step property needs a finite positive step.
- `UpdateState`, the radar's `Mode` flags and `IsActive`: the horizontal mode is a boolean input.
- Landing.DoLand: `LandHere` and `Land` stage bodies only set other autopilots' controls; they are modelled as keeping the stage.
- FlatSiteScanner.Progress: requires a positive maximum unevenness (a zero maximum divides 0 by the best score in the source and is not configured).
- FlatSiteScanner.CalculateUnevenness: requires a positive vessel size; the source divides by it.
- FlatSiteScanner.Start: requires a positive body radius; the source divides by it. The tolerance argument only parameterises the optimizer, which is outside this model.
- FlatSiteScanner.SurfacePoint: latitude and longitude are not normalised, and `Coordinates.Equals` is datatype equality.
- ObstacleSearch.ScanHasHundredBuckets: proved over exact reals. In doubles, the rounding of repeated `UT1 += dT` may yield a hundred and first bucket.
- Landing.SoftThrottle: states only the bounds of the throttle, not the stop-in-time formula itself. It requires a non-zero BrakeThrustThreshod, because line 879 divides by it; so do SoftPowered, SoftLandingStage, StageStep, DoLand and the stage lemmas that reach it.
