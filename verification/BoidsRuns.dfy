/** Whole flocking runs: clusters that start far enough apart never influence each other, and
    a robot that nobody else comes near slows down whatever it is told to seek. */
module BoidsRuns {
  import opened Vectors
  import opened Boids

  /** One frame for each goal, in order; the goal may change at every frame. */
  function Run(h: Hypot, rs: seq<Robot>, goals: seq<Vec>): seq<Robot>
    decreases |goals|
  {
    if goals == [] then rs else Run(h, Frame(h, rs, goals[0]), goals[1..])
  }

  /** Every robot of `A` is at least `d` from every robot of `B`. */
  ghost predicate Apart(h: Hypot, A: seq<Robot>, B: seq<Robot>, d: real) {
    forall i, j :: 0 <= i < |A| && 0 <= j < |B| ==> Dist(h, A[i].position, B[j].position) >= d
  }

  // ---------- Locality of one frame ----------

  lemma PlusAssociative(a: Neighbours, b: Neighbours, c: Neighbours)
    ensures Plus(Plus(a, b), c) == Plus(a, Plus(b, c))
    ensures Plus(a, NOBODY) == a == Plus(NOBODY, a)
  {
  }

  lemma {:induction false} GatherConcat(h: Hypot, A: seq<Robot>, B: seq<Robot>, r: Robot)
    ensures Gather(h, A + B, r) == Plus(Gather(h, A, r), Gather(h, B, r))
  {
    if B == [] {
      assert A + B == A;
      PlusAssociative(Gather(h, A, r), NOBODY, NOBODY);
    } else {
      var front := B[..|B| - 1];
      var last := Contribution(h, r, B[|B| - 1]);
      assert (A + B)[..|A + B| - 1] == A + front;
      GatherConcat(h, A, front, r);
      PlusAssociative(Gather(h, A, r), Gather(h, front, r), last);
    }
  }

  lemma ContributionFar(h: Hypot, r: Robot, o: Robot)
    requires o.id != r.id ==> Dist(h, o.position, r.position) >= VISION_RADIUS
    ensures Contribution(h, r, o) == NOBODY
  {
  }

  /** Robots beyond the vision radius contribute nothing at all. */
  lemma {:induction false} GatherFar(h: Hypot, B: seq<Robot>, r: Robot)
    requires forall j :: 0 <= j < |B| && B[j].id != r.id ==> Dist(h, B[j].position, r.position) >= VISION_RADIUS
    ensures Gather(h, B, r) == NOBODY
  {
    if B != [] {
      GatherFar(h, B[..|B| - 1], r);
      ContributionFar(h, r, B[|B| - 1]);
    }
  }

  /** Clusters out of sight of each other step independently; their ids may even coincide. */
  lemma FrameLocal(h: Hypot, A: seq<Robot>, B: seq<Robot>, goal: Vec)
    requires IsHypot(h)
    requires Apart(h, A, B, VISION_RADIUS)
    ensures Frame(h, A + B, goal) == Frame(h, A, goal) + Frame(h, B, goal)
  {
    forall i | 0 <= i < |A + B|
      ensures Frame(h, A + B, goal)[i] == (Frame(h, A, goal) + Frame(h, B, goal))[i]
    {
      if i < |A| {
        forall j | 0 <= j < |B| ensures Dist(h, B[j].position, A[i].position) >= VISION_RADIUS {
          DistSymmetric(h, A[i].position, B[j].position);
        }
        GatherIgnoresFar(h, A, B, A[i]);
      } else {
        GatherIgnoresFar(h, A, B, B[i - |A|]);
      }
    }
  }

  lemma GatherIgnoresFar(h: Hypot, A: seq<Robot>, B: seq<Robot>, r: Robot)
    ensures (forall j :: 0 <= j < |B| ==> Dist(h, B[j].position, r.position) >= VISION_RADIUS)
            ==> Gather(h, A + B, r) == Gather(h, A, r)
    ensures (forall i :: 0 <= i < |A| ==> Dist(h, A[i].position, r.position) >= VISION_RADIUS)
            ==> Gather(h, A + B, r) == Gather(h, B, r)
  {
    GatherConcat(h, A, B, r);
    if forall j :: 0 <= j < |B| ==> Dist(h, B[j].position, r.position) >= VISION_RADIUS {
      GatherFar(h, B, r);
      PlusAssociative(Gather(h, A, r), NOBODY, NOBODY);
    }
    if forall i :: 0 <= i < |A| ==> Dist(h, A[i].position, r.position) >= VISION_RADIUS {
      GatherFar(h, A, r);
      PlusAssociative(Gather(h, B, r), NOBODY, NOBODY);
    }
  }

  // ---------- Decomposition of a run ----------

  /** Two robots approach each other by at most 8 in a frame. */
  lemma ApproachBound(h: Hypot, A: seq<Robot>, i: nat, B: seq<Robot>, j: nat, goal: Vec)
    requires IsHypot(h)
    requires i < |A| && j < |B|
    ensures Dist(h, Frame(h, A, goal)[i].position, Frame(h, B, goal)[j].position)
         >= Dist(h, A[i].position, B[j].position) - 8.0
  {
    var a, b := A[i].position, B[j].position;
    var c, d := Frame(h, A, goal)[i].position, Frame(h, B, goal)[j].position;
    FrameBounds(h, A, goal, i);
    FrameBounds(h, B, goal, j);
    DistTriangle(h, a, c, b);
    DistTriangle(h, c, d, b);
    DistSymmetric(h, a, c);
  }

  /** Influence travels at finite speed: clusters at least 50 + 8(k - 1) apart spend k frames as
      if each were alone, for any sequence of goals. */
  lemma {:induction false} RunDecomposes(h: Hypot, A: seq<Robot>, B: seq<Robot>, goals: seq<Vec>)
    requires IsHypot(h)
    requires goals != [] ==> Apart(h, A, B, VISION_RADIUS + 8.0 * (|goals| - 1) as real)
    ensures Run(h, A + B, goals) == Run(h, A, goals) + Run(h, B, goals)
    decreases |goals|
  {
    if goals != [] {
      var A', B' := Frame(h, A, goals[0]), Frame(h, B, goals[0]);
      FrameLocal(h, A, B, goals[0]);
      forall i, j | 0 <= i < |A'| && 0 <= j < |B'|
        ensures Dist(h, A'[i].position, B'[j].position)
             >= VISION_RADIUS + 8.0 * (|goals| - 2) as real
      {
        ApproachBound(h, A, i, B, j, goals[0]);
      }
      RunDecomposes(h, A', B', goals[1..]);
    }
  }

  // ---------- The isolated robot ----------

  lemma NormalizeZero(h: Hypot)
    requires IsHypot(h)
    ensures Normalize(h, ZERO) == ZERO
  {
    ZeroNorm(h, ZERO);
  }

  lemma ScaleZero(s: real)
    ensures Scale(ZERO, s) == ZERO
  {
  }

  lemma Negation(v: Vec)
    ensures Sub(ZERO, v) == Scale(v, -1.0)
  {
  }

  /** With nobody in sight the separation term is `limit(-v, 0.1)`: a brake. */
  lemma BrakeForce(h: Hypot, r: Robot)
    requires IsHypot(h)
    ensures SepForce(h, r, NOBODY) == Limit(h, Scale(r.velocity, -1.0), 0.1)
  {
    NormalizeZero(h);
    ScaleZero(4.0);
    Negation(r.velocity);
  }

  lemma BrakedSpeed(h: Hypot, v: Vec)
    requires IsHypot(h)
    ensures Norm(h, Add(v, Scale(Limit(h, Scale(v, -1.0), 0.1), 1.5)))
         == if Norm(h, v) <= 0.1 then 0.5 * Norm(h, v) else Abs(Norm(h, v) - 0.15)
  {
    var n := Norm(h, v);
    NormScale(h, v, -1.0);
    if n <= 0.1 {
      assert Add(v, Scale(Scale(v, -1.0), 1.5)) == Scale(v, -0.5);
      NormScale(h, v, -0.5);
    } else {
      var s := 0.1 / n;
      assert s * n == 0.1;
      assert Add(v, Scale(Scale(Scale(v, -1.0), s), 1.5)) == Scale(v, 1.0 - 1.5 * s);
      NormScale(h, v, 1.0 - 1.5 * s);
      ScaledAbs(1.0 - 1.5 * s, n);
      assert (1.0 - 1.5 * s) * n == n - 0.15;
    }
  }

  lemma ScaledAbs(t: real, n: real)
    requires 0.0 <= n
    ensures Abs(t) * n == Abs(t * n)
  {
    if t < 0.0 {
      MulMonotone(t, 0.0, n);
    } else {
      MulMonotone(0.0, t, n);
    }
  }

  /** One frame alone: a speed up to 0.17 stays there and a higher one loses at least 0.03,
      whatever the goal. */
  lemma AloneFrame(h: Hypot, r: Robot, goal: Vec)
    requires IsHypot(h)
    ensures Norm(h, NextVelocity(h, r, NOBODY, goal)) <= Max(0.17, Norm(h, r.velocity) - 0.03)
  {
    var b, seek := SepForce(h, r, NOBODY), SeekForce(h, r, goal);
    var braked := Add(r.velocity, Scale(b, 1.5));
    var w := Add(r.velocity, Acceleration(h, r, NOBODY, goal));
    SteeringBounds(h, [], r, goal);
    BrakeForce(h, r);
    BrakedSpeed(h, r.velocity);
    NormScale(h, seek, 1.2);
    assert w == Add(braked, Scale(seek, 1.2));
    Triangle(h, braked, Scale(seek, 1.2));
    LimitInDisc(h, w, 4.0);
  }

  /** Alone on its goal a robot only brakes: its speed is halved up to 0.1, and beyond that it
      changes by exactly 0.15, within the limit of 4. */
  lemma AloneAtGoal(h: Hypot, r: Robot)
    requires IsHypot(h)
    ensures var n := Norm(h, r.velocity);
            var braked := if n <= 0.1 then 0.5 * n else Abs(n - 0.15);
            Norm(h, NextVelocity(h, r, NOBODY, r.position)) == if braked > 4.0 then 4.0 else braked
  {
    var b, seek := SepForce(h, r, NOBODY), SeekForce(h, r, r.position);
    var braked := Add(r.velocity, Scale(b, 1.5));
    ZeroNorm(h, Sub(r.position, r.position));
    BrakeForce(h, r);
    BrakedSpeed(h, r.velocity);
    OnlyBrake(r.velocity, b, AlignForce(h, r, NOBODY), CohForce(h, r, NOBODY), seek);
    LimitInDisc(h, braked, 4.0);
  }

  lemma OnlyBrake(v: Vec, sep: Vec, align: Vec, coh: Vec, seek: Vec)
    requires align == coh == seek == ZERO
    ensures Add(v, Combine(sep, align, coh, seek)) == Add(v, Scale(sep, 1.5))
  {
  }

  /** Alone and at rest, a robot starts straight at its goal with speed 0.12. */
  lemma AloneFromRest(h: Hypot, r: Robot, goal: Vec)
    requires IsHypot(h)
    requires r.velocity == ZERO && Dist(h, goal, r.position) > 0.0
    ensures NextVelocity(h, r, NOBODY, goal) == Scale(Normalize(h, Sub(goal, r.position)), 0.12)
  {
    var u := Normalize(h, Sub(goal, r.position));
    ForcesAtRest(h, r, goal, NOBODY, u);
    OnlySeek(r.velocity, SepForce(h, r, NOBODY), AlignForce(h, r, NOBODY), CohForce(h, r, NOBODY),
             SeekForce(h, r, goal), u);
    InsideLimit(h, u);
  }

  lemma ForcesAtRest(h: Hypot, r: Robot, goal: Vec, n: Neighbours, u: Vec)
    requires IsHypot(h)
    requires r.velocity == ZERO && n == NOBODY
    requires Dist(h, goal, r.position) > 0.0 && u == Normalize(h, Sub(goal, r.position))
    ensures SepForce(h, r, n) == AlignForce(h, r, n) == CohForce(h, r, n) == ZERO
    ensures SeekForce(h, r, goal) == Scale(u, 0.1)
    ensures Norm(h, u) == 1.0
  {
    SeekAtRest(h, r, goal, u);
    BrakeForce(h, r);
    AtRest(h, r.velocity);
  }

  lemma SeekAtRest(h: Hypot, r: Robot, goal: Vec, u: Vec)
    requires IsHypot(h)
    requires r.velocity == ZERO
    requires Dist(h, goal, r.position) > 0.0 && u == Normalize(h, Sub(goal, r.position))
    ensures SeekForce(h, r, goal) == Scale(u, 0.1)
    ensures Norm(h, u) == 1.0
  {
    var to := Sub(goal, r.position);
    assert SeekForce(h, r, goal) == Limit(h, Sub(Scale(u, 4.0), r.velocity), 0.1);
    ZeroNorm(h, to);
    NormalizeIsScale(h, to);
    FullForce(h, u, r.velocity);
  }

  lemma InsideLimit(h: Hypot, u: Vec)
    requires IsHypot(h)
    requires Norm(h, u) == 1.0
    ensures Limit(h, Scale(u, 0.12), 4.0) == Scale(u, 0.12)
  {
    NormScale(h, u, 0.12);
  }

  lemma AtRest(h: Hypot, v: Vec)
    requires IsHypot(h)
    requires v == ZERO
    ensures Limit(h, Scale(v, -1.0), 0.1) == ZERO
  {
    ZeroNorm(h, v);
    NegatedZero(v);
  }

  lemma NegatedZero(v: Vec)
    requires v == ZERO
    ensures Scale(v, -1.0) == v
  {
  }

  lemma OnlySeek(v: Vec, sep: Vec, align: Vec, coh: Vec, seek: Vec, u: Vec)
    requires v == sep == align == coh == ZERO && seek == Scale(u, 0.1)
    ensures Add(v, Combine(sep, align, coh, seek)) == Scale(u, 0.12)
  {
  }

  /** Every robot with another id is at least `d` from robot `i`. */
  ghost predicate Alone(h: Hypot, rs: seq<Robot>, i: nat, d: real)
    requires i < |rs|
  {
    forall j :: 0 <= j < |rs| && rs[j].id != rs[i].id ==> Dist(h, rs[j].position, rs[i].position) >= d
  }

  lemma {:induction false} RunKeepsIds(h: Hypot, rs: seq<Robot>, goals: seq<Vec>)
    ensures |Run(h, rs, goals)| == |rs|
    ensures forall i :: 0 <= i < |rs| ==> Run(h, rs, goals)[i].id == rs[i].id
    decreases |goals|
  {
    if goals != [] {
      RunKeepsIds(h, Frame(h, rs, goals[0]), goals[1..]);
    }
  }

  /** Nobody is within 50 of robot `i` at any frame of the run. */
  ghost predicate AloneThroughout(h: Hypot, rs: seq<Robot>, i: nat, goals: seq<Vec>)
    requires i < |rs|
    decreases |goals|
  {
    goals != [] ==> Alone(h, rs, i, VISION_RADIUS) && AloneThroughout(h, Frame(h, rs, goals[0]), i, goals[1..])
  }

  /** A robot that nobody comes within 50 of is braked through k frames: its speed is then at most
      max(0.17, v - 0.03k), for every sequence of goals.  In particular it is at most 0.17 as soon
      as 0.03k >= v - 0.17. */
  lemma {:induction false} AloneRun(h: Hypot, rs: seq<Robot>, i: nat, goals: seq<Vec>)
    requires IsHypot(h)
    requires i < |rs| && AloneThroughout(h, rs, i, goals)
    ensures |Run(h, rs, goals)| == |rs|
    ensures Norm(h, Run(h, rs, goals)[i].velocity)
         <= Max(0.17, Norm(h, rs[i].velocity) - 0.03 * |goals| as real)
    decreases |goals|
  {
    RunKeepsIds(h, rs, goals);
    if goals != [] {
      var next := Frame(h, rs, goals[0]);
      AloneStep(h, rs, i, goals[0]);
      AloneRun(h, next, i, goals[1..]);
      SpeedsChain(Norm(h, rs[i].velocity), Norm(h, next[i].velocity),
                  Norm(h, Run(h, next, goals[1..])[i].velocity), (|goals| - 1) as real);
    }
  }

  /** Starting at least 50 + 8(k - 1) from everybody else is enough to stay alone for k frames. */
  lemma {:induction false} FarStaysAlone(h: Hypot, rs: seq<Robot>, i: nat, goals: seq<Vec>)
    requires IsHypot(h)
    requires i < |rs|
    requires goals != [] ==> Alone(h, rs, i, VISION_RADIUS + 8.0 * (|goals| - 1) as real)
    ensures AloneThroughout(h, rs, i, goals)
    decreases |goals|
  {
    if goals != [] {
      AloneShrinks(h, rs, i, goals[0], VISION_RADIUS + 8.0 * (|goals| - 1) as real);
      FarStaysAlone(h, Frame(h, rs, goals[0]), i, goals[1..]);
    }
  }

  lemma AloneStep(h: Hypot, rs: seq<Robot>, i: nat, goal: Vec)
    requires IsHypot(h)
    requires i < |rs| && Alone(h, rs, i, VISION_RADIUS)
    ensures Norm(h, Frame(h, rs, goal)[i].velocity) <= Max(0.17, Norm(h, rs[i].velocity) - 0.03)
  {
    GatherFar(h, rs, rs[i]);
    AloneFrame(h, rs[i], goal);
  }

  lemma SpeedsChain(u: real, v: real, w: real, k: real)
    requires 0.0 <= k
    requires v <= Max(0.17, u - 0.03) && w <= Max(0.17, v - 0.03 * k)
    ensures w <= Max(0.17, u - 0.03 * (k + 1.0))
  {
  }

  lemma AloneShrinks(h: Hypot, rs: seq<Robot>, i: nat, goal: Vec, d: real)
    requires IsHypot(h)
    requires i < |rs| && Alone(h, rs, i, d)
    ensures Alone(h, Frame(h, rs, goal), i, d - 8.0)
  {
    var next := Frame(h, rs, goal);
    forall j | 0 <= j < |next| && next[j].id != next[i].id
      ensures Dist(h, next[j].position, next[i].position) >= d - 8.0
    {
      ApproachBound(h, rs, j, rs, i, goal);
    }
  }
}
