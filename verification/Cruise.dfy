/** Flocking on the line of sight: the exact speeds and positions of a robot that nobody comes near,
    and of a swarm on one point, while they fly straight at their goal. */
module Cruise {
  import opened Vectors
  import opened Boids
  import opened BoidsRuns
  import opened Coincident

  /** From `p` the goal lies at signed distance `s` along the unit vector `u`, and `v` is the speed
      `n` along it. */
  ghost predicate OnCourse(h: Hypot, p: Vec, v: Vec, goal: Vec, u: Vec, s: real, n: real) {
    Norm(h, u) == 1.0 && Sub(goal, p) == Scale(u, s) && v == Scale(u, n)
  }

  // ---------- The forces along the line ----------

  lemma LimitAlong(h: Hypot, u: Vec, a: real, max: real)
    requires IsHypot(h)
    requires Norm(h, u) == 1.0 && 0.0 < max
    ensures Limit(h, Scale(u, a), max) == Scale(u, Clamp(a, max))
  {
    var b := LimitOfScale(h, u, 1.0, a, a, max);
  }

  lemma SteerAhead(h: Hypot, r: Robot, u: Vec, k: real, n: real)
    requires IsHypot(h)
    requires Norm(h, u) == 1.0 && r.velocity == Scale(u, n) && k > 0.0 && n <= 3.9
    ensures Steer(h, r, Scale(u, k)) == Scale(u, 0.1)
    ensures Norm(h, Scale(u, k)) == k
  {
    NormScale(h, u, k);
    MeanOfEqual(u, k);
    assert Normalize(h, Scale(u, k)) == u;
    ScaleGap(u, 4.0, n);
    LimitAlong(h, u, 4.0 - n, 0.1);
  }

  lemma ScaleGap(u: Vec, a: real, b: real)
    ensures Sub(Scale(u, a), Scale(u, b)) == Scale(u, a - b)
  {
  }

  lemma SeekAhead(h: Hypot, r: Robot, goal: Vec, u: Vec, s: real, n: real)
    requires IsHypot(h)
    requires OnCourse(h, r.position, r.velocity, goal, u, s, n) && s > 0.0 && n <= 3.9
    ensures SeekForce(h, r, goal) == Scale(u, 0.1)
  {
    SteerAhead(h, r, u, s, n);
  }

  lemma BrakeAhead(h: Hypot, v: Vec, u: Vec, n: real)
    requires IsHypot(h)
    requires Norm(h, u) == 1.0 && v == Scale(u, n) && 0.0 <= n
    ensures Brake(h, v) == Scale(u, -Min(n, 0.1))
  {
    assert Scale(v, -1.0) == Scale(u, -n);
    LimitAlong(h, u, -n, 0.1);
  }

  lemma PushAhead(h: Hypot, r: Robot, u: Vec, n: real)
    requires IsHypot(h)
    requires Norm(h, u) == 1.0 && r.velocity == Scale(u, n) && 0.0 <= n <= 3.9
    ensures Steer(h, r, r.velocity) == Scale(u, if n == 0.0 then 0.0 else 0.1)
  {
    if n == 0.0 {
      ScaleNothing(u, n);
      SteerNowhere(h, r, r.velocity);
      BrakeAhead(h, r.velocity, u, n);
    } else {
      SteerAhead(h, r, u, n, n);
    }
  }

  // ---------- One frame ----------

  /** The next speed on the way to the goal: alone, or in a pack. */
  function NextSpeed(pack: bool, n: real): real {
    if pack then n - 2.5 * Min(n, 0.1) + (if n == 0.0 then 0.0 else 0.1) + 0.12
    else n - 1.5 * Min(n, 0.1) + 0.12
  }

  lemma NextSpeedRange(pack: bool, n: real)
    requires 0.0 <= n <= 3.9
    ensures 0.07 <= NextSpeed(pack, n) <= 3.9
    ensures n <= 0.12 ==> NextSpeed(false, n) <= 0.12
    ensures n == 0.0 || 0.07 <= n <= 0.12 ==> NextSpeed(pack, n) <= 0.12
  {
  }

  lemma CruiseSum(u: Vec, n: real, b: real, a: real, c: real, m: real)
    requires m == n - 1.5 * b + a - c + 0.12
    ensures Add(Scale(u, n), Combine(Scale(u, -b), Scale(u, a), Scale(u, -c), Scale(u, 0.1))) == Scale(u, m)
  {
  }

  lemma WithinLimit(h: Hypot, u: Vec, n: real)
    requires IsHypot(h)
    requires Norm(h, u) == 1.0 && -4.0 <= n <= 4.0
    ensures Limit(h, Scale(u, n), 4.0) == Scale(u, n)
  {
    LimitAlong(h, u, n, 4.0);
  }

  lemma AloneAhead(h: Hypot, r: Robot, goal: Vec, u: Vec, s: real, n: real)
    requires IsHypot(h)
    requires OnCourse(h, r.position, r.velocity, goal, u, s, n) && s > 0.0 && 0.0 <= n <= 3.9
    ensures NextVelocity(h, r, NOBODY, goal) == Scale(u, NextSpeed(false, n))
  {
    AloneForces(h, r, NOBODY, u);
    BrakeAhead(h, r.velocity, u, n);
    SeekAhead(h, r, goal, u, s, n);
    CruiseSum(u, n, Min(n, 0.1), 0.0, 0.0, NextSpeed(false, n));
    NextSpeedRange(false, n);
    WithinLimit(h, u, NextSpeed(false, n));
  }

  lemma AloneForces(h: Hypot, r: Robot, n: Neighbours, u: Vec)
    requires IsHypot(h)
    requires n == NOBODY
    ensures SepForce(h, r, n) == Brake(h, r.velocity)
    ensures AlignForce(h, r, n) == Scale(u, 0.0) && CohForce(h, r, n) == Scale(u, -0.0)
  {
    BrakeForce(h, r);
    ScaleNothing(u, 0.0);
  }

  lemma PackAhead(h: Hypot, p: Vec, v: Vec, goal: Vec, u: Vec, s: real, n: real)
    requires IsHypot(h)
    requires OnCourse(h, p, v, goal, u, s, n) && s > 0.0 && 0.0 <= n <= 3.9
    ensures PackVelocity(h, p, v, goal) == Scale(u, NextSpeed(true, n))
  {
    var r, b, a := Robot(0, p, v), Min(n, 0.1), if n == 0.0 then 0.0 else 0.1;
    BrakeAhead(h, v, u, n);
    PushAhead(h, r, u, n);
    SeekAhead(h, r, goal, u, s, n);
    PackSumAhead(h, r, goal, u, n, b, a, NextSpeed(true, n));
    NextSpeedRange(true, n);
    WithinLimit(h, u, NextSpeed(true, n));
  }

  lemma PackSumAhead(h: Hypot, r: Robot, goal: Vec, u: Vec, n: real, b: real, a: real, m: real)
    requires r.id == 0 && r.velocity == Scale(u, n) && m == n - 2.5 * b + a + 0.12
    requires Brake(h, r.velocity) == Scale(u, -b) && Steer(h, r, r.velocity) == Scale(u, a)
    requires SeekForce(h, r, goal) == Scale(u, 0.1)
    ensures PackVelocity(h, r.position, r.velocity, goal) == Limit(h, Scale(u, m), 4.0)
  {
    CruiseSum(u, n, b, a, b, m);
    assert r == Robot(0, r.position, r.velocity);
  }

  lemma MoveAhead(h: Hypot, p: Vec, goal: Vec, u: Vec, s: real, m: real)
    requires Norm(h, u) == 1.0 && Sub(goal, p) == Scale(u, s)
    ensures OnCourse(h, Add(p, Scale(u, m)), Scale(u, m), goal, u, s - m, m)
  {
  }

  lemma AloneCourse(h: Hypot, rs: seq<Robot>, i: nat, goal: Vec, u: Vec, s: real, n: real)
    requires IsHypot(h)
    requires i < |rs| && Alone(h, rs, i, VISION_RADIUS)
    requires OnCourse(h, rs[i].position, rs[i].velocity, goal, u, s, n) && s > 0.0 && 0.0 <= n <= 3.9
    ensures var r, m := Frame(h, rs, goal)[i], NextSpeed(false, n);
            OnCourse(h, r.position, r.velocity, goal, u, s - m, m)
  {
    AloneMove(h, rs, i, goal);
    AloneAhead(h, rs[i], goal, u, s, n);
    MoveAhead(h, rs[i].position, goal, u, s, NextSpeed(false, n));
  }

  lemma AloneMove(h: Hypot, rs: seq<Robot>, i: nat, goal: Vec)
    requires i < |rs| && Alone(h, rs, i, VISION_RADIUS)
    ensures var w := NextVelocity(h, rs[i], NOBODY, goal);
            Frame(h, rs, goal)[i] == Robot(rs[i].id, Add(rs[i].position, w), w)
  {
    GatherFar(h, rs, rs[i]);
  }

  /** The point from which the goal lies at signed distance `s` along `u`. */
  function Place(goal: Vec, u: Vec, s: real): Vec {
    Sub(goal, Scale(u, s))
  }

  /** The whole swarm is on this course. */
  ghost predicate PackOnCourse(h: Hypot, rs: seq<Robot>, goal: Vec, u: Vec, s: real, n: real) {
    Several(rs) && Norm(h, u) == 1.0 && OnePoint(rs, Place(goal, u, s), Scale(u, n))
  }

  lemma PackCourse(h: Hypot, rs: seq<Robot>, goal: Vec, u: Vec, s: real, n: real, m: real)
    requires IsHypot(h)
    requires PackOnCourse(h, rs, goal, u, s, n) && s > 0.0 && 0.0 <= n <= 3.9 && m == NextSpeed(true, n)
    ensures PackOnCourse(h, Frame(h, rs, goal), goal, u, s - m, m)
  {
    var p, v := Place(goal, u, s), Scale(u, n);
    PackFrame(h, rs, p, v, goal);
    PlaceOffset(goal, u, s, m);
    PackAhead(h, p, v, goal, u, s, n);
  }

  lemma PlaceOffset(goal: Vec, u: Vec, s: real, m: real)
    ensures Sub(goal, Place(goal, u, s)) == Scale(u, s)
    ensures Add(Place(goal, u, s), Scale(u, m)) == Place(goal, u, s - m)
  {
  }

  // ---------- Whole runs ----------

  function Speed(pack: bool, n: real, k: nat): real
    decreases k
  {
    if k == 0 then n else Speed(pack, NextSpeed(pack, n), k - 1)
  }

  function Travelled(pack: bool, n: real, k: nat): real
    decreases k
  {
    if k == 0 then 0.0 else NextSpeed(pack, n) + Travelled(pack, NextSpeed(pack, n), k - 1)
  }

  lemma {:induction false} TravelledForward(pack: bool, n: real, k: nat)
    requires 0.0 <= n <= 3.9
    ensures Travelled(pack, n, k) >= 0.07 * k as real
    decreases k
  {
    if k > 0 {
      NextSpeedRange(pack, n);
      TravelledForward(pack, NextSpeed(pack, n), k - 1);
    }
  }

  /** The goal is the same throughout and still ahead when the last frame begins. */
  predicate GoalAhead(goals: seq<Vec>, goal: Vec, pack: bool, n: real, s: real) {
    && (forall i :: 0 <= i < |goals| ==> goals[i] == goal)
    && (goals != [] ==> Travelled(pack, n, |goals| - 1) < s)
  }

  /** A run from distance `s` at speed `n` towards a goal ahead ends at distance `d` and speed `e`. */
  predicate Arriving(goals: seq<Vec>, goal: Vec, pack: bool, s: real, n: real, d: real, e: real) {
    && 0.0 <= n <= 3.9 && GoalAhead(goals, goal, pack, n, s)
    && d == s - Travelled(pack, n, |goals|) && e == Speed(pack, n, |goals|)
  }

  lemma StillArriving(goals: seq<Vec>, goal: Vec, pack: bool, s: real, n: real, d: real, e: real, m: real)
    requires goals != [] && Arriving(goals, goal, pack, s, n, d, e) && m == NextSpeed(pack, n)
    ensures s > 0.0 && 0.0 <= n <= 3.9 && goals[0] == goal
    ensures Arriving(goals[1..], goal, pack, s - m, m, d, e)
  {
    NextSpeedRange(pack, n);
    TravelledForward(pack, n, |goals| - 1);
  }

  /** A robot that nobody comes near and that flies at its goal stays on its line, with the iterated
      speeds, until it passes the goal. */
  lemma AloneCruise(h: Hypot, rs: seq<Robot>, i: nat, goals: seq<Vec>, goal: Vec, u: Vec, s: real, n: real)
    requires IsHypot(h)
    requires i < |rs| && AloneThroughout(h, rs, i, goals)
    requires OnCourse(h, rs[i].position, rs[i].velocity, goal, u, s, n) && 0.0 <= n <= 3.9
    requires GoalAhead(goals, goal, false, n, s)
    ensures |Run(h, rs, goals)| == |rs|
    ensures OnCourse(h, Run(h, rs, goals)[i].position, Run(h, rs, goals)[i].velocity, goal, u,
                     s - Travelled(false, n, |goals|), Speed(false, n, |goals|))
  {
    AloneArrives(h, rs, i, goals, goal, u, s, n, s - Travelled(false, n, |goals|), Speed(false, n, |goals|));
  }

  // Where the run ends is a parameter here, so that no product of vectors and distances has to be
  // rearranged in the induction.
  lemma {:induction false} AloneArrives(h: Hypot, rs: seq<Robot>, i: nat, goals: seq<Vec>, goal: Vec,
                                        u: Vec, s: real, n: real, d: real, e: real)
    requires IsHypot(h)
    requires i < |rs| && AloneThroughout(h, rs, i, goals)
    requires OnCourse(h, rs[i].position, rs[i].velocity, goal, u, s, n)
    requires Arriving(goals, goal, false, s, n, d, e)
    ensures |Run(h, rs, goals)| == |rs|
    ensures OnCourse(h, Run(h, rs, goals)[i].position, Run(h, rs, goals)[i].velocity, goal, u, d, e)
    decreases |goals|
  {
    hide *;
    RunKeepsIds(h, rs, goals);
    if goals == [] {
      Arrived(goals, goal, false, s, n, d, e);
      RunFrames(h, rs, goals, goal);
    } else {
      var m := NextSpeed(false, n);
      StillArriving(goals, goal, false, s, n, d, e, m);
      RunFrames(h, rs, goals, goal);
      AloneFirst(h, rs, i, goals);
      AloneCourse(h, rs, i, goal, u, s, n);
      AloneArrives(h, Frame(h, rs, goal), i, goals[1..], goal, u, s - m, m, d, e);
    }
  }

  lemma AloneFirst(h: Hypot, rs: seq<Robot>, i: nat, goals: seq<Vec>)
    requires i < |rs| && goals != [] && AloneThroughout(h, rs, i, goals)
    ensures Alone(h, rs, i, VISION_RADIUS) && AloneThroughout(h, Frame(h, rs, goals[0]), i, goals[1..])
  {
  }

  /** The same for a swarm on one point. */
  lemma PackCruise(h: Hypot, rs: seq<Robot>, goals: seq<Vec>, goal: Vec, u: Vec, s: real, n: real)
    requires IsHypot(h)
    requires PackOnCourse(h, rs, goal, u, s, n) && 0.0 <= n <= 3.9
    requires GoalAhead(goals, goal, true, n, s)
    ensures |Run(h, rs, goals)| == |rs|
    ensures PackOnCourse(h, Run(h, rs, goals), goal, u, s - Travelled(true, n, |goals|), Speed(true, n, |goals|))
  {
    PackArrives(h, rs, goals, goal, u, s, n, s - Travelled(true, n, |goals|), Speed(true, n, |goals|));
  }

  lemma {:induction false} PackArrives(h: Hypot, rs: seq<Robot>, goals: seq<Vec>, goal: Vec,
                                       u: Vec, s: real, n: real, d: real, e: real)
    requires IsHypot(h)
    requires PackOnCourse(h, rs, goal, u, s, n)
    requires Arriving(goals, goal, true, s, n, d, e)
    ensures |Run(h, rs, goals)| == |rs| && PackOnCourse(h, Run(h, rs, goals), goal, u, d, e)
    decreases |goals|
  {
    hide *;
    if goals == [] {
      Arrived(goals, goal, true, s, n, d, e);
      RunFrames(h, rs, goals, goal);
    } else {
      var m := NextSpeed(true, n);
      StillArriving(goals, goal, true, s, n, d, e, m);
      RunFrames(h, rs, goals, goal);
      PackCourse(h, rs, goal, u, s, n, m);
      PackArrives(h, Frame(h, rs, goal), goals[1..], goal, u, s - m, m, d, e);
    }
  }

  lemma Arrived(goals: seq<Vec>, goal: Vec, pack: bool, s: real, n: real, d: real, e: real)
    requires goals == [] && Arriving(goals, goal, pack, s, n, d, e)
    ensures d == s && e == n
  {
  }

  lemma RunFrames(h: Hypot, rs: seq<Robot>, goals: seq<Vec>, goal: Vec)
    requires goals != [] ==> goals[0] == goal
    ensures |Frame(h, rs, goal)| == |rs|
    ensures Run(h, rs, goals) == if goals == [] then rs else Run(h, Frame(h, rs, goal), goals[1..])
  {
  }

  // ---------- The speeds ----------

  /** (-1/2)^k */
  function Alternate(k: nat): real
    decreases k
  {
    if k == 0 then 1.0 else -0.5 * Alternate(k - 1)
  }

  /** Alone, the distance of the speed from 0.08 is halved and changes sign in every frame. */
  lemma {:induction false} SpeedSettles(n: real, k: nat)
    requires 0.04 <= n <= 0.1
    ensures Speed(false, n, k) - 0.08 == (n - 0.08) * Alternate(k)
    ensures 3.0 * (Travelled(false, n, k) - 0.08 * k as real) == (n - 0.08) * (Alternate(k) - 1.0)
    decreases k
  {
    if k > 0 {
      var m := NextSpeed(false, n);
      assert m - 0.08 == -0.5 * (n - 0.08);
      SpeedSettles(m, k - 1);
      Halve(n - 0.08, m - 0.08, Alternate(k - 1));
    }
  }

  lemma Halve(x: real, y: real, a: real)
    requires y == -0.5 * x
    ensures y * a == x * (-0.5 * a)
    ensures 3.0 * y + y * (a - 1.0) == x * (-0.5 * a - 1.0)
  {
    assert y * (a - 1.0) == y * a - y;
  }

  /** From rest the speeds are 0.12, 0.09 and then 0.08 + 0.01 (-1/2)^(k - 2): the robot ends up
      flying at 0.08. */
  lemma FromRestAlone(k: nat)
    requires k >= 2
    ensures Speed(false, 0.0, k) == 0.08 + 0.01 * Alternate(k - 2)
    ensures 300.0 * (Travelled(false, 0.0, k) - 0.08 * k as real - 0.05) == Alternate(k - 2) - 1.0
  {
    SpeedSettles(0.09, k - 2);
    StartAlone(0.0, k);
  }

  lemma StartAlone(n: real, k: nat)
    requires n == 0.0 && k >= 2
    ensures Speed(false, n, k) == Speed(false, 0.09, k - 2)
    ensures Travelled(false, n, k) == 0.21 + Travelled(false, 0.09, k - 2)
  {
    var m := NextSpeed(false, n);
    assert m == 0.12;
    assert NextSpeed(false, m) == 0.09;
    assert Speed(false, n, k) == Speed(false, m, k - 1);
    assert Travelled(false, n, k) == m + Travelled(false, m, k - 1);
  }

  /** A robot that starts from rest and that nobody comes near flies straight at its goal until it
      passes it; from the second frame on, its speed and the way it has come are exactly these. */
  lemma AloneFromRestRun(h: Hypot, rs: seq<Robot>, i: nat, goals: seq<Vec>, goal: Vec, d: real)
    requires IsHypot(h)
    requires i < |rs| && AloneThroughout(h, rs, i, goals) && rs[i].velocity == ZERO
    requires d == Dist(h, goal, rs[i].position) > 0.0 && GoalAhead(goals, goal, false, 0.0, d)
    ensures |Run(h, rs, goals)| == |rs|
    ensures var r, u, k := Run(h, rs, goals)[i], Normalize(h, Sub(goal, rs[i].position)), |goals|;
            && OnCourse(h, r.position, r.velocity, goal, u, d - Travelled(false, 0.0, k), Speed(false, 0.0, k))
            && (k >= 2 ==>
                  && Speed(false, 0.0, k) == 0.08 + 0.01 * Alternate(k - 2)
                  && Travelled(false, 0.0, k) == 0.08 * k as real + 0.05 - (1.0 - Alternate(k - 2)) / 300.0)
  {
    var u := Normalize(h, Sub(goal, rs[i].position));
    RestOnCourse(h, rs[i].position, rs[i].velocity, goal, u, d, 0.0);
    AloneCruise(h, rs, i, goals, goal, u, d, 0.0);
    if |goals| >= 2 {
      FromRestAlone(|goals|);
    }
  }

  lemma RestOnCourse(h: Hypot, p: Vec, v: Vec, goal: Vec, u: Vec, d: real, n: real)
    requires IsHypot(h)
    requires v == ZERO && n == 0.0 && d == Dist(h, goal, p) > 0.0 && u == Normalize(h, Sub(goal, p))
    ensures OnCourse(h, p, v, goal, u, d, n)
  {
    var to := Sub(goal, p);
    ZeroNorm(h, to);
    NormalizeIsScale(h, to);
    ScaleBack(to, u, d);
    ScaleNothing(u, n);
  }

  lemma ScaleBack(to: Vec, u: Vec, d: real)
    requires d > 0.0 && u == Scale(to, 1.0 / d)
    ensures Scale(u, d) == to
  {
    var i := 1.0 / d;
    assert i * d == 1.0;
    assert (to.x * i) * d == to.x * (i * d) && (to.y * i) * d == to.y * (i * d);
  }

  /** The speed of a pack never settles, but from rest it stays between 0.07 and 0.12. */
  lemma {:induction false} PackSpeeds(n: real, k: nat)
    requires n == 0.0 || 0.07 <= n <= 0.12
    ensures k > 0 ==> 0.07 <= Speed(true, n, k) <= 0.12
    ensures 0.07 * k as real <= Travelled(true, n, k) <= 0.12 * k as real
    decreases k
  {
    if k > 0 {
      NextSpeedRange(true, n);
      PackSpeeds(NextSpeed(true, n), k - 1);
    }
  }

  // ---------- The bounds are attained ----------

  /** Both sides of the bound max(0.17, v - 0.03) for a robot alone are attained: v - 0.03 with the
      goal straight ahead, and 0.17 by a speed of 0.1 with the goal straight behind. */
  lemma AloneAttained(h: Hypot, r: Robot, goal: Vec, u: Vec, s: real, n: real)
    requires IsHypot(h)
    requires OnCourse(h, r.position, r.velocity, goal, u, s, n)
    ensures s > 0.0 && 0.2 <= n <= 3.9 ==> Norm(h, NextVelocity(h, r, NOBODY, goal)) == Max(0.17, n - 0.03)
    ensures s < 0.0 && n == 0.1 ==> Norm(h, NextVelocity(h, r, NOBODY, goal)) == 0.17
  {
    if s > 0.0 && 0.2 <= n <= 3.9 {
      AloneAhead(h, r, goal, u, s, n);
      NormScale(h, u, NextSpeed(false, n));
    } else if s < 0.0 && n == 0.1 {
      AloneBehind(h, r, goal, u, s, n);
    }
  }

  lemma AloneBehind(h: Hypot, r: Robot, goal: Vec, u: Vec, s: real, n: real)
    requires IsHypot(h)
    requires OnCourse(h, r.position, r.velocity, goal, u, s, n) && s < 0.0 && 0.0 <= n <= 4.0
    ensures NextVelocity(h, r, NOBODY, goal) == Scale(u, n - 1.5 * Min(n, 0.1) - 0.12)
    ensures Norm(h, NextVelocity(h, r, NOBODY, goal)) == Abs(n - 1.5 * Min(n, 0.1) - 0.12)
  {
    var e, m := Scale(u, -1.0), n - 1.5 * Min(n, 0.1) - 0.12;
    SeekBehind(h, r, goal, u, s, n, e);
    AloneForces(h, r, NOBODY, u);
    BrakeAhead(h, r.velocity, u, n);
    BehindSum(u, n, Min(n, 0.1), e);
    WithinLimit(h, u, m);
    NormScale(h, u, m);
  }

  lemma SeekBehind(h: Hypot, r: Robot, goal: Vec, u: Vec, s: real, n: real, e: Vec)
    requires IsHypot(h)
    requires OnCourse(h, r.position, r.velocity, goal, u, s, n) && s < 0.0 && 0.0 <= n
    requires e == Scale(u, -1.0)
    ensures SeekForce(h, r, goal) == Scale(e, 0.1)
  {
    NormScale(h, u, -1.0);
    Opposite(u, e, n);
    Opposite(u, e, s);
    SeekAhead(h, r, goal, e, -s, -n);
  }

  lemma Opposite(u: Vec, e: Vec, k: real)
    requires e == Scale(u, -1.0)
    ensures Scale(u, k) == Scale(e, -k)
  {
  }

  lemma BehindSum(u: Vec, n: real, b: real, e: Vec)
    requires e == Scale(u, -1.0)
    ensures Add(Scale(u, n), Combine(Scale(u, -b), Scale(u, 0.0), Scale(u, -0.0), Scale(e, 0.1)))
         == Scale(u, n - 1.5 * b - 0.12)
  {
  }

  /** A slow pack comes arbitrarily near to its bound of 0.22. */
  lemma PackAttained(h: Hypot, p: Vec, v: Vec, goal: Vec, u: Vec, s: real, n: real)
    requires IsHypot(h)
    requires OnCourse(h, p, v, goal, u, s, n) && s > 0.0 && 0.0 < n <= 0.1
    ensures Norm(h, PackVelocity(h, p, v, goal)) == 0.22 - 1.5 * n
  {
    PackAhead(h, p, v, goal, u, s, n);
    NormScale(h, u, NextSpeed(true, n));
  }
}
