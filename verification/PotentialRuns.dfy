/** Runs of the potential field with a fixed goal, for a robot that no neighbour pushes: it
    follows its line of sight, never overshoots, and stops in a bounded number of frames.  A
    swarm standing on one point is always in that case. */
module PotentialRuns {
  import opened Vectors
  import opened PotentialField

  function Run(h: Hypot, rs: seq<Robot>, goal: Vec, k: nat): seq<Robot>
    decreases k
  {
    if k == 0 then rs else Run(h, Frame(h, rs, goal), goal, k - 1)
  }

  /** No run of the potential field changes an id or a stored velocity: flocking takes up again with
      the velocities it left. */
  lemma {:induction false} RunKeeps(h: Hypot, rs: seq<Robot>, goal: Vec, k: nat)
    ensures |Run(h, rs, goal, k)| == |rs|
    ensures forall i :: 0 <= i < |rs| ==>
      Run(h, rs, goal, k)[i].id == rs[i].id && Run(h, rs, goal, k)[i].velocity == rs[i].velocity
    decreases k
  {
    if k > 0 {
      RunKeeps(h, Frame(h, rs, goal), goal, k - 1);
    }
  }

  ghost predicate UndisturbedRun(h: Hypot, rs: seq<Robot>, i: nat, goal: Vec, k: nat)
    requires i < |rs|
    decreases k
  {
    k > 0 ==> Undisturbed(h, rs, rs[i]) && UndisturbedRun(h, Frame(h, rs, goal), i, goal, k - 1)
  }

  /** The distance to the goal after one undisturbed frame that starts at distance `d`. */
  function NextDistance(d: real): real {
    if d > STOPPING_DIST then Max(0.92 * d, d - 4.0) else d
  }

  function Distance(d: real, k: nat): real
    decreases k
  {
    if k == 0 then d else Distance(NextDistance(d), k - 1)
  }

  // ---------- One frame ----------

  lemma ShortenedOffset(p: Vec, goal: Vec, s: real)
    ensures Sub(goal, Add(p, Scale(Scale(Sub(goal, p), s), 0.8))) == Scale(Sub(goal, p), 1.0 - 0.8 * s)
    ensures Sub(Add(p, Scale(Scale(Sub(goal, p), s), 0.8)), p) == Scale(Sub(goal, p), 0.8 * s)
  {
  }

  lemma StepFactor(d: real, s: real)
    requires d > 5.0
    requires s == Min(d * 0.1, 5.0) / d
    ensures 0.0 <= 1.0 - 0.8 * s && 0.0 <= 0.8 * s
    ensures (1.0 - 0.8 * s) * d == NextDistance(d)
    ensures (0.8 * s) * d == d - NextDistance(d)
  {
    var m := Min(d * 0.1, 5.0);
    assert s * d == m;
    assert (1.0 - 0.8 * s) * d == d - 0.8 * (s * d);
    assert (0.8 * s) * d == 0.8 * (s * d);
    if 1.0 - 0.8 * s < 0.0 {
      MulStrict(1.0 - 0.8 * s, 0.0, d);
    }
    if s < 0.0 {
      MulStrict(s, 0.0, d);
    }
  }

  /** An undisturbed robot keeps its line of sight to the goal: the remaining offset shrinks by
      a factor between 0 and 1, and the distance travelled is the distance gained. */
  lemma UndisturbedFrame(h: Hypot, rs: seq<Robot>, r: Robot, goal: Vec) returns (c: real)
    requires IsHypot(h)
    requires Undisturbed(h, rs, r)
    ensures Approaches(h, r.position, goal, PotentialRobot(h, rs, r, goal).position, c)
  {
    var p := r.position;
    NoRepulsion(h, rs, r);
    AddZero(Repulsion(h, rs, r), Attraction(h, p, goal));
    assert PotentialRobot(h, rs, r, goal).position == Add(p, Scale(Attraction(h, p, goal), 0.8));
    c := AttractedStep(h, p, goal);
  }

  /** From `p` to `q` the offset to the goal shrinks by the factor `c`, without changing sides;
      the distance becomes `NextDistance`, what is lost is travelled, and within the stopping
      distance nothing moves. */
  ghost predicate Approaches(h: Hypot, p: Vec, goal: Vec, q: Vec, c: real) {
    && 0.0 <= c <= 1.0
    && Sub(goal, q) == Scale(Sub(goal, p), c)
    && Dist(h, goal, q) == NextDistance(Dist(h, goal, p))
    && Dist(h, q, p) == Dist(h, goal, p) - NextDistance(Dist(h, goal, p))
    && (Dist(h, goal, p) <= STOPPING_DIST ==> q == p)
  }

  lemma AttractedStep(h: Hypot, p: Vec, goal: Vec) returns (c: real)
    requires IsHypot(h)
    ensures Approaches(h, p, goal, Add(p, Scale(Attraction(h, p, goal), 0.8)), c)
  {
    var d, a := Dist(h, goal, p), Attraction(h, p, goal);
    if d > STOPPING_DIST {
      var s := Min(d * 0.1, 5.0) / d;
      assert a == Scale(Sub(goal, p), s);
      MovingFrame(h, p, goal, d, s, Add(p, Scale(a, 0.8)));
      c := 1.0 - 0.8 * s;
    } else {
      RestingFrame(h, p, goal, a, Add(p, Scale(a, 0.8)));
      c := 1.0;
    }
  }

  lemma RestingFrame(h: Hypot, p: Vec, goal: Vec, a: Vec, q: Vec)
    requires IsHypot(h)
    requires a == ZERO && q == Add(p, Scale(a, 0.8))
    ensures q == p && Dist(h, q, p) == 0.0
    ensures Sub(goal, q) == Scale(Sub(goal, p), 1.0)
  {
    DampedZero(a);
    AddZero(a, p);
    ScaleOne(Sub(goal, p));
    SubSelf(h, p);
  }

  lemma MovingFrame(h: Hypot, p: Vec, goal: Vec, d: real, s: real, q: Vec)
    requires IsHypot(h)
    requires d == Dist(h, goal, p) > STOPPING_DIST
    requires s == Min(d * 0.1, 5.0) / d
    requires q == Add(p, Scale(Scale(Sub(goal, p), s), 0.8))
    ensures Dist(h, goal, q) == NextDistance(d)
    ensures Dist(h, q, p) == d - NextDistance(d)
    ensures 0.0 <= 1.0 - 0.8 * s <= 1.0
    ensures Sub(goal, q) == Scale(Sub(goal, p), 1.0 - 0.8 * s)
  {
    ShortenedOffset(p, goal, s);
    StepFactor(d, s);
    NormScale(h, Sub(goal, p), 1.0 - 0.8 * s);
    NormScale(h, Sub(goal, p), 0.8 * s);
  }

  lemma ScaleOne(a: Vec)
    ensures Scale(a, 1.0) == a
  {
  }

  lemma SubSelf(h: Hypot, p: Vec)
    requires IsHypot(h)
    ensures Dist(h, p, p) == 0.0
  {
    ZeroNorm(h, Sub(p, p));
  }

  // ---------- The distances of a run ----------

  /** The run never goes below 4.6, never moves away, covers exactly 4 per frame while it is 50
      or more away, and is over after ceil((d - 5) / 0.4) frames. */
  lemma {:induction false} DistanceBounds(d: real, k: nat)
    requires d > 5.0
    ensures 4.6 < Distance(d, k) <= d
    ensures 0.4 * k as real >= d - 5.0 ==> Distance(d, k) <= 5.0
    ensures d - 4.0 * k as real >= 46.0 ==> Distance(d, k) == d - 4.0 * k as real
    decreases k
  {
    if k > 0 {
      var e := NextDistance(d);
      if e > 5.0 {
        DistanceBounds(e, k - 1);
      } else {
        DistanceRests(e, k - 1);
      }
    }
  }

  lemma {:induction false} DistanceRests(d: real, k: nat)
    requires d <= 5.0
    ensures Distance(d, k) == d
    decreases k
  {
    if k > 0 {
      DistanceRests(d, k - 1);
    }
  }

  // ---------- Whole runs ----------

  lemma {:induction false} RunKeepsIds(h: Hypot, rs: seq<Robot>, goal: Vec, k: nat)
    ensures |Run(h, rs, goal, k)| == |rs|
    ensures forall i :: 0 <= i < |rs| ==> Run(h, rs, goal, k)[i].id == rs[i].id
    decreases k
  {
    if k > 0 {
      RunKeepsIds(h, Frame(h, rs, goal), goal, k - 1);
    }
  }

  /** A robot that nobody disturbs for k frames is at `Distance(d, k)`, whatever the rest of the
      swarm does meanwhile. */
  lemma {:induction false} UndisturbedApproach(h: Hypot, rs: seq<Robot>, i: nat, goal: Vec, k: nat)
    requires IsHypot(h)
    requires i < |rs| && UndisturbedRun(h, rs, i, goal, k)
    ensures |Run(h, rs, goal, k)| == |rs|
    ensures Dist(h, goal, Run(h, rs, goal, k)[i].position) == Distance(Dist(h, goal, rs[i].position), k)
    decreases k
  {
    RunKeepsIds(h, rs, goal, k);
    if k > 0 {
      var _ := UndisturbedFrame(h, rs, rs[i], goal);
      UndisturbedApproach(h, Frame(h, rs, goal), i, goal, k - 1);
    }
  }

  ghost predicate Colocated(rs: seq<Robot>, p: Vec) {
    forall i :: 0 <= i < |rs| ==> rs[i].position == p
  }

  lemma ColocatedFrame(h: Hypot, rs: seq<Robot>, i: nat, p: Vec, goal: Vec)
    requires IsHypot(h)
    requires Colocated(rs, p) && i < |rs|
    ensures Undisturbed(h, rs, rs[i])
    ensures Colocated(Frame(h, rs, goal), Frame(h, rs, goal)[i].position)
  {
    SubSelf(h, p);
    forall j | 0 <= j < |rs| ensures Frame(h, rs, goal)[j].position == Add(p, Scale(Attraction(h, p, goal), 0.8)) {
      NoRepulsion(h, rs, rs[j]);
      AddZero(Repulsion(h, rs, rs[j]), Attraction(h, p, goal));
    }
  }

  /** A swarm on one point (as right after registration) has only zero distances, which do not
      repel: it travels as one point and is never disturbed, so the bounds above apply to it
      without any assumption about the run. */
  lemma {:induction false} ColocatedApproach(h: Hypot, rs: seq<Robot>, i: nat, p: Vec, goal: Vec, k: nat)
    requires IsHypot(h)
    requires Colocated(rs, p) && i < |rs|
    ensures UndisturbedRun(h, rs, i, goal, k)
    ensures |Run(h, rs, goal, k)| == |rs|
    ensures Colocated(Run(h, rs, goal, k), Run(h, rs, goal, k)[i].position)
    ensures Dist(h, goal, Run(h, rs, goal, k)[i].position) == Distance(Dist(h, goal, p), k)
    decreases k
  {
    if k > 0 {
      var next := Frame(h, rs, goal);
      ColocatedFrame(h, rs, i, p, goal);
      ColocatedApproach(h, next, i, next[i].position, goal, k - 1);
    }
    UndisturbedApproach(h, rs, i, goal, k);
  }
}
