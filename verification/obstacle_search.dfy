/**
 * Ground-clearance searches along a predicted trajectory.
 *
 * `ObstacleBetween` is the bisection probe of the autopilot: starting at the
 * beginning of a time window it repeatedly probes the clearance half a step
 * ahead and half a step behind, moves to the lower of the two, and halves the
 * step, stopping at the first probe whose clearance is below the requested
 * offset. `Searcher` is the anytime scan that runs one bisection per
 * hundredth of the braking window and reports the running maximum deficit.
 *
 * The clearance along the trajectory (orbit propagation minus terrain height)
 * is an uninterpreted function of time.
 */
module ObstacleSearch {
  import opened Numeric

  /** The bisection stops once its step is at most this many seconds. */
  const Tolerance: real := 0.01
  /** Clearance assumed before the first probe. */
  const InitialDist: real := 1.0
  /** The braking window is scanned in this many equal buckets. */
  const Buckets: real := 100.0
  /** Running maximum of the scan before any bucket is probed. */
  const NoObstacle: real := -1.0

  /** Clearance of the ground below the trajectory at a given time. */
  type Clearance = real -> real

  /** Every time in the window has a clearance below the double.MaxValue sentinel. */
  ghost predicate BelowSentinel(clearance: Clearance, start: real, stop: real)
  {
    forall t :: start <= t <= stop ==> clearance(t) < MaxDouble
  }

  /** Position and probed clearance chosen by one bisection step. */
  datatype Choice = Choice(ut: real, dist: real)

  /**
   * One loop iteration: probe one step ahead and one step behind (a probe
   * outside the window reads as the sentinel) and move to the lower one;
   * ties go backwards.
   */
  function Choose(clearance: Clearance, start: real, stop: real, ut: real, dT: real): Choice
  {
    var d1p := if ut + dT > stop then MaxDouble else clearance(ut + dT);
    var d1m := if ut - dT < start then MaxDouble else clearance(ut - dT);
    if d1p < d1m then Choice(ut + dT, d1p) else Choice(ut - dT, d1m)
  }

  /** The bisection loop from position `ut` with step `dT` and last clearance `dist`. */
  function BisectLoop(clearance: Clearance, start: real, stop: real, offset: real,
                      ut: real, dT: real, dist: real): real
    decreases (100.0 * dT).Floor
  {
    if dT <= Tolerance then offset - dist
    else
      var c := Choose(clearance, start, stop, ut, dT);
      if c.dist < offset then offset - c.dist
      else BisectLoop(clearance, start, stop, offset, c.ut, dT / 2.0, c.dist)
  }

  /** The steps of the bisection loop (position moved to, clearance read there), in order. */
  ghost function Trace(clearance: Clearance, start: real, stop: real, offset: real,
                       ut: real, dT: real): seq<Choice>
    decreases (100.0 * dT).Floor
  {
    if dT <= Tolerance then []
    else
      var c := Choose(clearance, start, stop, ut, dT);
      if c.dist < offset then [c]
      else [c] + Trace(clearance, start, stop, offset, c.ut, dT / 2.0)
  }

  /** The steps of a whole `ObstacleBetween` call. */
  ghost function Probes(clearance: Clearance, start: real, stop: real, offset: real): seq<Choice>
  {
    Trace(clearance, start, stop, offset, start, stop - start)
  }

  /**
   * Clearance deficit (offset minus clearance) found by bisection over
   * [start, stop]; positive means the ground intrudes within `offset`.
   */
  function ObstacleBetween(clearance: Clearance, start: real, stop: real, offset: real): (r: real)
    ensures stop - start <= Tolerance ==> r == offset - InitialDist
    ensures stop - start > Tolerance && BelowSentinel(clearance, start, stop) ==>
              exists t :: start <= t <= stop && r == offset - clearance(t)
  {
    ObstacleBetweenWitness(clearance, start, stop, offset);
    BisectLoop(clearance, start, stop, offset, start, stop - start, InitialDist)
  }

  /** obstacle_ahead: the deficit over the whole braking window, or -1 without a trajectory. */
  function ObstacleAhead(clearance: Clearance, hasTrajectory: bool, startUT: real,
                         brakeEndUT: real, offset: real): (r: real)
    ensures !hasTrajectory ==> r == NoObstacle
    ensures hasTrajectory && brakeEndUT - startUT <= Tolerance ==> r == offset - InitialDist
  {
    if hasTrajectory then ObstacleBetween(clearance, startUT, brakeEndUT, offset) else NoObstacle
  }

  // ---------------------------------------------------------------------
  // Properties of the bisection
  // ---------------------------------------------------------------------

  /** Every step of `tr` moved to a time within [start, stop] and read its genuine clearance. */
  ghost predicate InWindow(tr: seq<Choice>, clearance: Clearance, start: real, stop: real)
  {
    forall i :: 0 <= i < |tr| ==> start <= tr[i].ut <= stop && tr[i].dist == clearance(tr[i].ut)
  }

  /**
   * One step from a grid state (`ut` an even multiple of the step away from
   * `start`) lands on the grid of the halved step, inside the window, at a
   * position whose clearance is the probed value, never the sentinel.
   */
  lemma ChoiceOnGrid(clearance: Clearance, start: real, stop: real, ut: real, dT: real, m: nat)
    returns (m': nat)
    requires BelowSentinel(clearance, start, stop)
    requires ut == start + (m as real) * 2.0 * dT
    requires start <= ut <= stop
    requires Tolerance < dT <= stop - start
    ensures var c := Choose(clearance, start, stop, ut, dT);
            start <= c.ut <= stop && c.dist == clearance(c.ut)
            && c.ut == start + (m' as real) * 2.0 * (dT / 2.0)
  {
    var c := Choose(clearance, start, stop, ut, dT);
    if m == 0 {
      assert ut == start;
      assert clearance(ut + dT) < MaxDouble;
      assert c.ut == ut + dT;
      m' := 1;
    } else {
      assert ut - dT == start + ((2 * m - 1) as real) * dT;
      assert ut - dT >= start;
      assert clearance(ut - dT) < MaxDouble;
      if c.ut == ut + dT {
        assert ut + dT == start + ((2 * m + 1) as real) * dT;
        m' := 2 * m + 1;
      } else {
        m' := 2 * m - 1;
      }
    }
  }

  /**
   * The loop state lies on a dyadic grid, so every position the loop moves
   * to stays within [start, stop] and reads a genuine clearance.
   */
  lemma {:induction false} TraceStaysInWindow(clearance: Clearance, start: real, stop: real,
                                              offset: real, ut: real, dT: real, m: nat)
    requires BelowSentinel(clearance, start, stop)
    requires ut == start + (m as real) * 2.0 * dT
    requires start <= ut <= stop
    requires dT <= stop - start
    ensures InWindow(Trace(clearance, start, stop, offset, ut, dT), clearance, start, stop)
    decreases (100.0 * dT).Floor
  {
    if dT > Tolerance {
      var c := Choose(clearance, start, stop, ut, dT);
      var m' := ChoiceOnGrid(clearance, start, stop, ut, dT, m);
      if c.dist >= offset {
        TraceStaysInWindow(clearance, start, stop, offset, c.ut, dT / 2.0, m');
        var rest := Trace(clearance, start, stop, offset, c.ut, dT / 2.0);
        assert Trace(clearance, start, stop, offset, ut, dT) == [c] + rest;
      }
    }
  }

  /** Every position `ObstacleBetween` moves to lies within [start, stop]. */
  lemma ObstacleBetweenProbesInWindow(clearance: Clearance, start: real, stop: real, offset: real)
    requires BelowSentinel(clearance, start, stop)
    ensures InWindow(Probes(clearance, start, stop, offset), clearance, start, stop)
  {
    if stop - start > Tolerance {
      TraceStaysInWindow(clearance, start, stop, offset, start, stop - start, 0);
    }
  }

  /**
   * The loop returns the deficit read at its last step; every earlier step
   * cleared the offset, so the loop stops at the first intrusion.
   */
  lemma {:induction false} TraceResult(clearance: Clearance, start: real, stop: real,
                                       offset: real, ut: real, dT: real, dist: real)
    ensures var tr := Trace(clearance, start, stop, offset, ut, dT);
            var r := BisectLoop(clearance, start, stop, offset, ut, dT, dist);
            && (tr == [] <==> dT <= Tolerance)
            && (tr == [] ==> r == offset - dist)
            && (tr != [] ==> r == offset - tr[|tr| - 1].dist)
            && (forall i :: 0 <= i < |tr| - 1 ==> tr[i].dist >= offset)
    decreases (100.0 * dT).Floor
  {
    if dT > Tolerance {
      var c := Choose(clearance, start, stop, ut, dT);
      if c.dist >= offset {
        TraceResult(clearance, start, stop, offset, c.ut, dT / 2.0, c.dist);
        var rest := Trace(clearance, start, stop, offset, c.ut, dT / 2.0);
        var tr := Trace(clearance, start, stop, offset, ut, dT);
        assert tr == [c] + rest;
        assert forall i :: 1 <= i < |tr| ==> tr[i] == rest[i - 1];
      }
    }
  }

  /**
   * Result rules of `ObstacleBetween`: with no room to probe the result is
   * offset - 1; otherwise it is the deficit at the last probe, every earlier
   * probe cleared the offset, and the result is positive exactly when some
   * probe's clearance is below the offset.
   */
  lemma ObstacleBetweenResult(clearance: Clearance, start: real, stop: real, offset: real)
    requires BelowSentinel(clearance, start, stop)
    ensures var tr := Probes(clearance, start, stop, offset);
            var r := ObstacleBetween(clearance, start, stop, offset);
            && (tr == [] <==> stop - start <= Tolerance)
            && (tr != [] ==> r == offset - clearance(tr[|tr| - 1].ut))
            && (forall i :: 0 <= i < |tr| - 1 ==> clearance(tr[i].ut) >= offset)
            && (tr != [] ==> (r > 0.0 <==> exists i :: 0 <= i < |tr| && clearance(tr[i].ut) < offset))
  {
    TraceResult(clearance, start, stop, offset, start, stop - start, InitialDist);
    ObstacleBetweenProbesInWindow(clearance, start, stop, offset);
  }

  /** If every probe clears the offset, no obstacle is reported. */
  lemma ObstacleBetweenClearTrack(clearance: Clearance, start: real, stop: real, offset: real)
    requires BelowSentinel(clearance, start, stop)
    requires stop - start > Tolerance
    requires forall i :: 0 <= i < |Probes(clearance, start, stop, offset)| ==>
               clearance(Probes(clearance, start, stop, offset)[i].ut) >= offset
    ensures ObstacleBetween(clearance, start, stop, offset) <= 0.0
  {
    ObstacleBetweenResult(clearance, start, stop, offset);
  }

  /** Existence of the time whose clearance the result reports; used by `ObstacleBetween`. */
  lemma ObstacleBetweenWitness(clearance: Clearance, start: real, stop: real, offset: real)
    ensures stop - start > Tolerance && BelowSentinel(clearance, start, stop) ==>
              exists t :: start <= t <= stop &&
                BisectLoop(clearance, start, stop, offset, start, stop - start, InitialDist)
                  == offset - clearance(t)
  {
    if stop - start > Tolerance && BelowSentinel(clearance, start, stop) {
      TraceResult(clearance, start, stop, offset, start, stop - start, InitialDist);
      TraceStaysInWindow(clearance, start, stop, offset, start, stop - start, 0);
      var tr := Trace(clearance, start, stop, offset, start, stop - start);
      var t := tr[|tr| - 1].ut;
      assert start <= t <= stop;
    }
  }

  /** The positions a trace moves to. */
  function Positions(tr: seq<Choice>): (ps: seq<real>)
    ensures |ps| == |tr|
    ensures forall i :: 0 <= i < |tr| ==> ps[i] == tr[i].ut
  {
    seq(|tr|, i requires 0 <= i < |tr| => tr[i].ut)
  }

  /** The move to ps[i] spans half the move before it (the move from `from` for i == 1). */
  ghost predicate HalvesAt(ps: seq<real>, from: real, i: int)
    requires 1 <= i < |ps|
  {
    2.0 * Abs(ps[i] - ps[i - 1]) == Abs(ps[i - 1] - (if i == 1 then from else ps[i - 2]))
  }

  /**
   * Moves through `ps` starting from `from`: the first spans dT and every
   * later one spans half the move before it.
   */
  ghost predicate HalvingSteps(ps: seq<real>, from: real, dT: real)
  {
    && (ps != [] ==> Abs(ps[0] - from) == dT)
    && forall i :: 1 <= i < |ps| ==> HalvesAt(ps, from, i)
  }

  /** One move of a halving sequence of step dT/2 with a move of length dT prepended. */
  lemma HalvingConsAt(x: real, rest: seq<real>, from: real, dT: real, i: int)
    requires Abs(x - from) == dT
    requires HalvingSteps(rest, x, dT / 2.0)
    requires 1 <= i <= |rest|
    ensures HalvesAt([x] + rest, from, i)
  {
    var ps := [x] + rest;
    if i == 1 {
      assert ps[1] == rest[0] && ps[0] == x;
    } else {
      assert HalvesAt(rest, x, i - 1);
      assert ps[i] == rest[i - 1] && ps[i - 1] == rest[i - 2];
      assert ps[i - 2] == (if i - 1 == 1 then x else rest[i - 3]);
    }
  }

  /** Prepending a move of length dT to a halving sequence of step dT/2 keeps it halving. */
  lemma HalvingStepsCons(x: real, rest: seq<real>, from: real, dT: real)
    requires Abs(x - from) == dT
    requires HalvingSteps(rest, x, dT / 2.0)
    ensures HalvingSteps([x] + rest, from, dT)
  {
    var ps := [x] + rest;
    assert ps[0] == x;
    forall i | 1 <= i < |ps|
      ensures HalvesAt(ps, from, i)
    {
      HalvingConsAt(x, rest, from, dT, i);
    }
  }

  /**
   * The step halves every iteration: the first move spans the initial step
   * and each later move is half as long as the one before.
   */
  lemma {:induction false} TraceStepsHalve(clearance: Clearance, start: real, stop: real,
                                           offset: real, ut: real, dT: real)
    ensures HalvingSteps(Positions(Trace(clearance, start, stop, offset, ut, dT)), ut, dT)
    decreases (100.0 * dT).Floor
  {
    if dT > Tolerance {
      var c := Choose(clearance, start, stop, ut, dT);
      assert Abs(c.ut - ut) == dT;
      if c.dist >= offset {
        TraceStepsHalve(clearance, start, stop, offset, c.ut, dT / 2.0);
        var rest := Trace(clearance, start, stop, offset, c.ut, dT / 2.0);
        HalvingStepsCons(c.ut, Positions(rest), ut, dT);
        assert Positions([c] + rest) == [c.ut] + Positions(rest);
      } else {
        HalvingStepsCons(c.ut, [], ut, dT);
        assert Positions([c]) == [c.ut];
      }
    }
  }

  /** The moves of `ObstacleBetween` span the window, then halve at every step. */
  lemma ObstacleBetweenStepsHalve(clearance: Clearance, start: real, stop: real, offset: real)
    ensures HalvingSteps(Positions(Probes(clearance, start, stop, offset)), start, stop - start)
  {
    TraceStepsHalve(clearance, start, stop, offset, start, stop - start);
  }

  // ---------------------------------------------------------------------
  // The anytime scan over the braking window
  // ---------------------------------------------------------------------

  /** The probe run on one bucket [ut0, ut1]: the deficit it reports. */
  type BucketProbe = (real, real) -> real

  /** The probe the autopilot runs on every bucket: a bisection with the searcher's offset. */
  function Bisection(clearance: Clearance, offset: real): BucketProbe
  {
    (ut0: real, ut1: real) => ObstacleBetween(clearance, ut0, ut1, offset)
  }

  /**
   * State of `biggest_obstacle_searcher`: the window, the bucket length, the
   * current bucket [ut0, ut1], the running maximum and the last yielded value
   * (`current`, 0 before the first yield as for a fresh C# enumerator).
   */
  datatype Searcher = Searcher(offset: real, start: real, stop: real, dT: real,
                               ut0: real, ut1: real, dist: real, current: real)

  /** The enumerator created for a trajectory window [startUT, brakeEndUT]. */
  function NewSearcher(startUT: real, brakeEndUT: real, offset: real): (s: Searcher)
    ensures s.dist == NoObstacle && s.offset == offset
    ensures s.start == s.ut0 == startUT && s.stop == brakeEndUT
    ensures s.ut1 == s.ut0 + s.dT
    ensures Buckets * s.dT == brakeEndUT - startUT
  {
    var dT := (brakeEndUT - startUT) / Buckets;
    Searcher(offset, startUT, brakeEndUT, dT, startUT, startUT + dT, NoObstacle, 0.0)
  }

  /** Outcome of MoveNext: the next state with a yielded value, or exhaustion. */
  datatype Move = Yielded(next: Searcher) | Exhausted

  /** One iteration of the scan loop: probe the bucket, move to the next one, update the maximum. */
  function Step(probe: BucketProbe, s: Searcher): (n: Searcher)
    ensures n.ut0 == s.ut1 && n.ut1 == s.ut1 + s.dT
    ensures n.dT == s.dT && n.offset == s.offset && n.start == s.start && n.stop == s.stop
  {
    var d := probe(s.ut0, s.ut1);
    var dist := if d > s.dist then d else s.dist;
    s.(ut0 := s.ut1, ut1 := s.ut1 + s.dT, dist := dist, current := dist)
  }

  /**
   * MoveNext of the scan: while the bucket starts before the end of the
   * window, probe it, advance to the next bucket and yield the running
   * maximum.
   */
  function MoveNext(probe: BucketProbe, s: Searcher): (m: Move)
    ensures m.Yielded? <==> s.ut0 < s.stop
  {
    if s.ut0 < s.stop then Yielded(Step(probe, s)) else Exhausted
  }

  /**
   * The running maximum never decreases from one yield to the next, covers
   * the bucket just probed, and is what the enumerator yields.
   */
  lemma RunningMaxNeverDecreases(probe: BucketProbe, s: Searcher)
    requires s.ut0 < s.stop
    ensures MoveNext(probe, s).Yielded?
    ensures MoveNext(probe, s).next.dist >= s.dist
    ensures MoveNext(probe, s).next.dist >= probe(s.ut0, s.ut1)
    ensures MoveNext(probe, s).next.dist == s.dist || MoveNext(probe, s).next.dist == probe(s.ut0, s.ut1)
    ensures MoveNext(probe, s).next.current == MoveNext(probe, s).next.dist
  {
  }

  /** The state after `k` loop iterations, ignoring the loop guard. */
  function Advance(probe: BucketProbe, s: Searcher, k: nat): Searcher
    decreases k
  {
    if k == 0 then s else Step(probe, Advance(probe, s, k - 1))
  }

  /** Maximum of `init` and every element of `xs`: the reference for the scan. */
  function MaxOf(init: real, xs: seq<real>): (r: real)
    ensures r >= init
    ensures forall i :: 0 <= i < |xs| ==> r >= xs[i]
    ensures r == init || exists i :: 0 <= i < |xs| && r == xs[i]
  {
    if xs == [] then init else Max(MaxOf(init, xs[..|xs| - 1]), xs[|xs| - 1])
  }

  /** Start of the i-th equal bucket of the window of `s`. */
  function BucketStart(s: Searcher, i: nat): real
  {
    s.ut0 + (i as real) * s.dT
  }

  /** Deficits the probe reports for the first k equal buckets. */
  function BucketDeficits(probe: BucketProbe, s: Searcher, k: nat): (ds: seq<real>)
    ensures |ds| == k
    ensures forall i :: 0 <= i < k ==> ds[i] == probe(BucketStart(s, i), BucketStart(s, i + 1))
  {
    seq(k, i requires 0 <= i < k => probe(BucketStart(s, i), BucketStart(s, i + 1)))
  }

  /**
   * After k iterations from a state whose bucket is one step long, the
   * current bucket is the k-th of the equal buckets and the window and
   * offset are unchanged.
   */
  lemma {:induction false} AdvancePositions(probe: BucketProbe, s: Searcher, k: nat)
    requires s.ut1 == s.ut0 + s.dT
    ensures var t := Advance(probe, s, k);
            && t.ut0 == BucketStart(s, k)
            && t.ut1 == BucketStart(s, k + 1)
            && t.offset == s.offset && t.start == s.start && t.stop == s.stop && t.dT == s.dT
  {
    if k > 0 {
      AdvancePositions(probe, s, k - 1);
      assert BucketStart(s, k) + s.dT == BucketStart(s, k + 1) by {
        assert ((k + 1) as real) * s.dT == (k as real) * s.dT + s.dT;
      }
    } else {
      assert BucketStart(s, 1) == s.ut0 + s.dT;
    }
  }

  /**
   * After k iterations the running maximum is the maximum of the initial
   * value and the deficits of the k equal buckets already probed.
   */
  lemma {:induction false} AdvanceIsRunningMax(probe: BucketProbe, s: Searcher, k: nat)
    requires s.ut1 == s.ut0 + s.dT
    ensures Advance(probe, s, k).dist == MaxOf(s.dist, BucketDeficits(probe, s, k))
  {
    if k > 0 {
      AdvanceIsRunningMax(probe, s, k - 1);
      AdvancePositions(probe, s, k - 1);
      var ds := BucketDeficits(probe, s, k);
      assert ds[..k - 1] == BucketDeficits(probe, s, k - 1);
    }
  }

  /**
   * In exact arithmetic a window with start < stop is scanned in exactly
   * 100 buckets: the first 100 MoveNext calls yield and the next one reports
   * exhaustion. An empty or reversed window yields nothing.
   */
  lemma ScanHasHundredBuckets(probe: BucketProbe, startUT: real, brakeEndUT: real, offset: real, k: nat)
    requires k <= 100
    ensures var s := NewSearcher(startUT, brakeEndUT, offset);
            MoveNext(probe, Advance(probe, s, k)).Yielded? <==> (startUT < brakeEndUT && k < 100)
  {
    var s := NewSearcher(startUT, brakeEndUT, offset);
    AdvancePositions(probe, s, k);
    BucketsCoverWindow(startUT, brakeEndUT, s.dT, k);
  }

  /** Arithmetic core: start + k*(L/100) < stop exactly when L > 0 and k < 100. */
  lemma BucketsCoverWindow(startUT: real, brakeEndUT: real, dT: real, k: nat)
    requires Buckets * dT == brakeEndUT - startUT
    requires k <= 100
    ensures startUT + (k as real) * dT < brakeEndUT <==> (startUT < brakeEndUT && k < 100)
  {
    var x := (k as real) * dT;
    if dT > 0.0 {
      if k < 100 {
        assert brakeEndUT - startUT - x == ((100 - k) as real) * dT;
      }
    } else {
      assert x <= 0.0;
    }
  }

  /**
   * From a fresh enumerator, the running maximum after k buckets is the
   * maximum of -1 and the deficits of those k buckets.
   */
  lemma FreshScanYieldsRunningMax(probe: BucketProbe, startUT: real, brakeEndUT: real, offset: real, k: nat)
    ensures var s := NewSearcher(startUT, brakeEndUT, offset);
            Advance(probe, s, k).dist == MaxOf(NoObstacle, BucketDeficits(probe, s, k))
  {
    AdvanceIsRunningMax(probe, NewSearcher(startUT, brakeEndUT, offset), k);
  }

  // ---------------------------------------------------------------------
  // find_biggest_obstacle_ahead
  // ---------------------------------------------------------------------

  /** Trajectory window as the searcher needs it. */
  datatype Window = Window(startUT: real, brakeEndUT: real)

  /**
   * The `obstacle_searcher` field: absent, or an enumerator together with
   * the trajectory clearance it captured when it was created.
   */
  datatype SearchSlot = NoSearcher | Running(s: Searcher, trajectory: Clearance)

  /** The result of one call: more to come, the height read, and the stored enumerator. */
  datatype Found = Found(more: bool, height: real, searcher: SearchSlot)

  /** Read `Current`, then MoveNext: keep the enumerator while it yields. */
  function ReadAndAdvance(clearance: Clearance, s: Searcher): (r: Found)
    ensures r.height == s.current
    ensures r.more <==> s.ut0 < s.stop
    ensures r.more ==> r.searcher == Running(MoveNext(Bisection(clearance, s.offset), s).next, clearance)
    ensures !r.more ==> r.searcher == NoSearcher
  {
    match MoveNext(Bisection(clearance, s.offset), s)
    case Yielded(n) => Found(true, s.current, Running(n, clearance))
    case Exhausted => Found(false, s.current, NoSearcher)
  }

  /**
   * find_biggest_obstacle_ahead: without a trajectory report -1 and nothing
   * more; otherwise create the enumerator over the current trajectory if
   * absent (a window with nothing to scan leaves the exhausted enumerator in
   * place), read its current value, and drop it once MoveNext reports
   * exhaustion. A running enumerator keeps probing the trajectory and the
   * offset it was created with, whatever the current ones are.
   */
  function FindBiggestObstacleAhead(clearance: Clearance, trajectory: Window, hasTrajectory: bool,
                                    offset: real, slot: SearchSlot): (r: Found)
    ensures !hasTrajectory ==> r == Found(false, NoObstacle, slot)
    ensures r.more ==> r.searcher.Running?
    ensures hasTrajectory && slot.Running? ==> r == ReadAndAdvance(slot.trajectory, slot.s)
    ensures hasTrajectory && slot.NoSearcher? && trajectory.startUT >= trajectory.brakeEndUT ==>
              r == Found(false, NoObstacle, Running(NewSearcher(trajectory.startUT, trajectory.brakeEndUT, offset),
                                                    clearance))
  {
    if !hasTrajectory then Found(false, NoObstacle, slot)
    else if slot.NoSearcher? then
      var s0 := NewSearcher(trajectory.startUT, trajectory.brakeEndUT, offset);
      match MoveNext(Bisection(clearance, offset), s0)
      case Exhausted => Found(false, NoObstacle, Running(s0, clearance))
      case Yielded(s1) => ReadAndAdvance(clearance, s1)
    else ReadAndAdvance(slot.trajectory, slot.s)
  }

  /** The state of a search over `w` after k buckets, probing `clearance`. */
  function SearchAfter(clearance: Clearance, w: Window, offset: real, k: nat): Searcher
  {
    Advance(Bisection(clearance, offset), NewSearcher(w.startUT, w.brakeEndUT, offset), k)
  }

  /** Maximum of -1 and the deficits of the first k buckets of a search over `w`. */
  function BiggestOfFirst(clearance: Clearance, w: Window, offset: real, k: nat): real
  {
    MaxOf(NoObstacle, BucketDeficits(Bisection(clearance, offset), NewSearcher(w.startUT, w.brakeEndUT, offset), k))
  }

  /**
   * A freshly created enumerator over a non-empty window reports the deficit
   * of the first bucket (the running maximum after one step), keeps going,
   * and stores the search two buckets in.
   */
  lemma FirstCallReportsFirstBucket(clearance: Clearance, w: Window, offset: real)
    requires w.startUT < w.brakeEndUT
    ensures var r := FindBiggestObstacleAhead(clearance, w, true, offset, NoSearcher);
            var s := NewSearcher(w.startUT, w.brakeEndUT, offset);
            && r.more && r.height == Max(NoObstacle, ObstacleBetween(clearance, s.ut0, s.ut1, offset))
            && r.searcher == Running(SearchAfter(clearance, w, offset, 2), clearance)
  {
    var s := NewSearcher(w.startUT, w.brakeEndUT, offset);
    BucketsCoverWindow(w.startUT, w.brakeEndUT, s.dT, 0);
    BucketsCoverWindow(w.startUT, w.brakeEndUT, s.dT, 1);
    AdvancePositions(Bisection(clearance, offset), s, 1);
  }

  /**
   * A later call on a search that has probed k buckets reports the running
   * maximum of that search, continues iff buckets remain, and stores the
   * search one bucket further; the trajectory, window and offset of the
   * call itself play no part.
   */
  lemma LaterCallAdvances(clearance: Clearance, w: Window, offset: real, k: nat,
                          current: Clearance, currentWindow: Window, currentOffset: real)
    requires w.startUT < w.brakeEndUT && 1 <= k <= 100
    ensures var r := FindBiggestObstacleAhead(current, currentWindow, true, currentOffset,
                                              Running(SearchAfter(clearance, w, offset, k), clearance));
            && r.height == SearchAfter(clearance, w, offset, k).dist
            && (r.more <==> k < 100)
            && r.searcher == (if k < 100 then Running(SearchAfter(clearance, w, offset, k + 1), clearance)
                              else NoSearcher)
  {
    var s := NewSearcher(w.startUT, w.brakeEndUT, offset);
    var probe := Bisection(clearance, offset);
    var t := SearchAfter(clearance, w, offset, k);
    AdvancePositions(probe, s, k);
    ScanHasHundredBuckets(probe, w.startUT, w.brakeEndUT, offset, k);
    assert t == Step(probe, Advance(probe, s, k - 1));
    assert t.current == t.dist;
    assert Bisection(clearance, t.offset) == probe;
    assert MoveNext(probe, t).Yielded? <==> k < 100;
    if k < 100 {
      assert MoveNext(probe, t).next == SearchAfter(clearance, w, offset, k + 1);
    }
  }

  /**
   * A later call on a search that has probed k buckets reports the biggest
   * deficit of those k buckets, continues iff buckets remain, and stores the
   * search one bucket further; the trajectory, window and offset of the
   * call itself play no part.
   */
  lemma LaterCallReportsRunningMax(clearance: Clearance, w: Window, offset: real, k: nat,
                                   current: Clearance, currentWindow: Window, currentOffset: real)
    requires w.startUT < w.brakeEndUT && 1 <= k <= 100
    ensures var r := FindBiggestObstacleAhead(current, currentWindow, true, currentOffset,
                                              Running(SearchAfter(clearance, w, offset, k), clearance));
            && r.height == BiggestOfFirst(clearance, w, offset, k)
            && (r.more <==> k < 100)
            && r.searcher == (if k < 100 then Running(SearchAfter(clearance, w, offset, k + 1), clearance)
                              else NoSearcher)
  {
    LaterCallAdvances(clearance, w, offset, k, current, currentWindow, currentOffset);
    AdvanceIsRunningMax(Bisection(clearance, offset), NewSearcher(w.startUT, w.brakeEndUT, offset), k);
  }

  /** The inputs of one call of find_biggest_obstacle_ahead that has a trajectory. */
  datatype Call = Call(clearance: Clearance, trajectory: Window, offset: real)

  /** Successive calls, each on the enumerator the previous one stored: the last result. */
  function RunCalls(calls: seq<Call>, slot: SearchSlot): (r: Found)
    requires |calls| > 0
    decreases |calls|
  {
    var r := FindBiggestObstacleAhead(calls[0].clearance, calls[0].trajectory, true, calls[0].offset, slot);
    if |calls| == 1 then r else RunCalls(calls[1..], r.searcher)
  }

  /**
   * Once a search over a non-empty window has started, the k-th call reports
   * the biggest deficit of the first k buckets of the trajectory the first
   * call saw, and the search stops exactly at the hundredth call, however
   * the trajectory changed in between.
   */
  lemma {:induction false} SuccessiveCallsReportRunningMax(calls: seq<Call>)
    requires 1 <= |calls| <= 100
    requires calls[0].trajectory.startUT < calls[0].trajectory.brakeEndUT
    ensures var first := calls[0];
            var r := RunCalls(calls, NoSearcher);
            && r.height == BiggestOfFirst(first.clearance, first.trajectory, first.offset, |calls|)
            && (r.more <==> |calls| < 100)
  {
    var first := calls[0];
    var r1 := FindBiggestObstacleAhead(first.clearance, first.trajectory, true, first.offset, NoSearcher);
    FirstCallReportsFirstBucket(first.clearance, first.trajectory, first.offset);
    if |calls| == 1 {
      assert RunCalls(calls, NoSearcher) == r1;
      FirstBucketIsBiggestOfOne(first.clearance, first.trajectory, first.offset);
    } else {
      assert RunCalls(calls, NoSearcher) == RunCalls(calls[1..], r1.searcher);
      CallsFromRunning(first.clearance, first.trajectory, first.offset, 2, calls[1..]);
      AdvanceIsRunningMax(Bisection(first.clearance, first.offset),
                          NewSearcher(first.trajectory.startUT, first.trajectory.brakeEndUT, first.offset), |calls|);
    }
  }

  /** The biggest deficit of the first bucket alone, against -1. */
  lemma FirstBucketIsBiggestOfOne(clearance: Clearance, w: Window, offset: real)
    ensures var s := NewSearcher(w.startUT, w.brakeEndUT, offset);
            BiggestOfFirst(clearance, w, offset, 1) == Max(NoObstacle, ObstacleBetween(clearance, s.ut0, s.ut1, offset))
  {
    var s := NewSearcher(w.startUT, w.brakeEndUT, offset);
    var ds := BucketDeficits(Bisection(clearance, offset), s, 1);
    assert ds[..0] == [];
    assert BucketStart(s, 0) == s.ut0;
  }

  /**
   * Calls on a search that has already probed k buckets, k >= 1: the last
   * reports the running maximum after all buckets probed so far, and
   * continues iff fewer than 100 were.
   */
  lemma {:induction false} CallsFromRunning(clearance: Clearance, w: Window, offset: real, k: nat, calls: seq<Call>)
    requires w.startUT < w.brakeEndUT && 1 <= k && 1 <= |calls| && k + |calls| <= 101
    ensures var r := RunCalls(calls, Running(SearchAfter(clearance, w, offset, k), clearance));
            && r.height == SearchAfter(clearance, w, offset, k + |calls| - 1).dist
            && (r.more <==> k + |calls| - 1 < 100)
    decreases |calls|
  {
    var slot := Running(SearchAfter(clearance, w, offset, k), clearance);
    var r := FindBiggestObstacleAhead(calls[0].clearance, calls[0].trajectory, true, calls[0].offset, slot);
    LaterCallAdvances(clearance, w, offset, k, calls[0].clearance, calls[0].trajectory, calls[0].offset);
    if |calls| > 1 {
      var rest := calls[1..];
      var next := Running(SearchAfter(clearance, w, offset, k + 1), clearance);
      assert r.searcher == next;
      assert RunCalls(calls, slot) == RunCalls(rest, next);
      CallsFromRunning(clearance, w, offset, k + 1, rest);
      var n := k + |calls| - 1;
      assert (k + 1) + |rest| - 1 == n;
      assert RunCalls(rest, next).height == SearchAfter(clearance, w, offset, n).dist;
      assert RunCalls(calls, slot).height == SearchAfter(clearance, w, offset, n).dist;
    } else {
      assert RunCalls(calls, slot) == r;
      assert r.height == SearchAfter(clearance, w, offset, k).dist;
      assert k + |calls| - 1 == k;
    }
  }
}
