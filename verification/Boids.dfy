/** One frame of flocking, `moveToBoids` in `swarmbase-ui/app/page.tsx`: the step of a robot
    as a function of the whole list, the accumulator loop that computes it, and the speed
    and steering bounds of a frame. */
module Boids {
  import opened Vectors

  // The multiplicative parameters are written where they act: maxSpeed 4, maxForce 0.1,
  // sepWeight 1.5, seekWeight 1.2; alignWeight and cohesionWeight are 1.

  const VISION_RADIUS: real := 50.0
  const SEP_RADIUS: real := 20.0

  // ---------- What a robot gathers from the others ----------

  datatype Neighbours = Neighbours(sep: Vec, align: Vec, coh: Vec, countAlign: nat, countCoh: nat)

  const NOBODY: Neighbours := Neighbours(ZERO, ZERO, ZERO, 0, 0)

  function Plus(a: Neighbours, b: Neighbours): Neighbours {
    Neighbours(Add(a.sep, b.sep), Add(a.align, b.align), Add(a.coh, b.coh),
               a.countAlign + b.countAlign, a.countCoh + b.countCoh)
  }

  /** What an observer standing at `p` gathers from `o`, whoever the observer is. */
  function Seen(h: Hypot, p: Vec, o: Robot): Neighbours {
    var d := Dist(h, o.position, p);
    var away := if 0.0 < d < SEP_RADIUS then Vec(-((o.position.x - p.x) / d), -((o.position.y - p.y) / d)) else ZERO;
    if d < VISION_RADIUS then
      Neighbours(away, o.velocity, o.position, 1, 1)
    else
      NOBODY.(sep := away)
  }

  /** A robot skips every entry that carries its own id. */
  function Contribution(h: Hypot, r: Robot, o: Robot): Neighbours {
    if o.id == r.id then NOBODY else Seen(h, r.position, o)
  }

  function Gather(h: Hypot, rs: seq<Robot>, r: Robot): Neighbours {
    if rs == [] then
      NOBODY
    else
      Plus(Gather(h, rs[..|rs| - 1], r), Contribution(h, r, rs[|rs| - 1]))
  }

  // ---------- Steering ----------

  function Steer(h: Hypot, r: Robot, direction: Vec): Vec {
    Limit(h, Sub(Scale(Normalize(h, direction), 4.0), r.velocity), 0.1)
  }

  function SeekForce(h: Hypot, r: Robot, goal: Vec): Vec {
    var to := Sub(goal, r.position);
    if Norm(h, to) > 0.0 then Steer(h, r, to) else ZERO
  }

  function SepForce(h: Hypot, r: Robot, n: Neighbours): Vec {
    Steer(h, r, n.sep)
  }

  function AlignForce(h: Hypot, r: Robot, n: Neighbours): Vec {
    if n.countAlign > 0 then
      Steer(h, r, Vec(n.align.x / n.countAlign as real, n.align.y / n.countAlign as real))
    else
      n.align
  }

  function CohForce(h: Hypot, r: Robot, n: Neighbours): Vec {
    if n.countCoh > 0 then
      Steer(h, r, Vec(n.coh.x / n.countCoh as real - r.position.x, n.coh.y / n.countCoh as real - r.position.y))
    else
      n.coh
  }

  function Combine(sep: Vec, align: Vec, coh: Vec, seek: Vec): Vec {
    Vec(sep.x * 1.5 + align.x + coh.x + seek.x * 1.2,
        sep.y * 1.5 + align.y + coh.y + seek.y * 1.2)
  }

  function Acceleration(h: Hypot, r: Robot, n: Neighbours, goal: Vec): Vec {
    Combine(SepForce(h, r, n), AlignForce(h, r, n), CohForce(h, r, n), SeekForce(h, r, goal))
  }

  function NextVelocity(h: Hypot, r: Robot, n: Neighbours, goal: Vec): Vec {
    Limit(h, Add(r.velocity, Acceleration(h, r, n, goal)), 4.0)
  }

  function Move(h: Hypot, r: Robot, n: Neighbours, goal: Vec): Robot {
    var v := NextVelocity(h, r, n, goal);
    Robot(r.id, Add(r.position, v), v)
  }

  function BoidsRobot(h: Hypot, rs: seq<Robot>, r: Robot, goal: Vec): Robot {
    Move(h, r, Gather(h, rs, r), goal)
  }

  function Frame(h: Hypot, rs: seq<Robot>, goal: Vec): seq<Robot> {
    seq(|rs|, i requires 0 <= i < |rs| => BoidsRobot(h, rs, rs[i], goal))
  }

  // ---------- The loops of the source ----------

  lemma GatherStep(h: Hypot, rs: seq<Robot>, r: Robot, k: nat)
    requires k < |rs|
    ensures Gather(h, rs[..k + 1], r) == Plus(Gather(h, rs[..k], r), Contribution(h, r, rs[k]))
  {
    assert rs[..k + 1][..k] == rs[..k];
  }

  /** The neighbour loop: five accumulators changed in place while the list is scanned. */
  method GatherNeighbours(h: Hypot, rs: seq<Robot>, r: Robot) returns (n: Neighbours)
    ensures n == Gather(h, rs, r)
  {
    var sepX, sepY, alignX, alignY, cohX, cohY := 0.0, 0.0, 0.0, 0.0, 0.0, 0.0;
    var countAlign, countCoh := 0, 0;
    var k := 0;
    while k < |rs|
      invariant 0 <= k <= |rs|
      invariant countAlign >= 0 && countCoh >= 0
      invariant Gather(h, rs[..k], r)
             == Neighbours(Vec(sepX, sepY), Vec(alignX, alignY), Vec(cohX, cohY), countAlign, countCoh)
    {
      GatherStep(h, rs, r, k);
      var o := rs[k];
      k := k + 1;
      if o.id == r.id {
        continue;
      }
      var ox := o.position.x - r.position.x;
      var oy := o.position.y - r.position.y;
      var d := h(ox, oy);
      assert d == Dist(h, o.position, r.position);
      if d < VISION_RADIUS {
        alignX, alignY := alignX + o.velocity.x, alignY + o.velocity.y;
        countAlign := countAlign + 1;
        cohX, cohY := cohX + o.position.x, cohY + o.position.y;
        countCoh := countCoh + 1;
      }
      if d > 0.0 && d < SEP_RADIUS {
        sepX := sepX - (o.position.x - r.position.x) / d;
        sepY := sepY - (o.position.y - r.position.y) / d;
      }
    }
    assert rs[..k] == rs;
    n := Neighbours(Vec(sepX, sepY), Vec(alignX, alignY), Vec(cohX, cohY), countAlign, countCoh);
  }

  /** Steering towards the target: desired velocity minus current velocity, limited. */
  method Seek(h: Hypot, r: Robot, cx: real, cy: real) returns (seek: Vec)
    ensures seek == SeekForce(h, r, Vec(cx, cy))
  {
    seek := ZERO;
    var dx, dy := cx - r.position.x, cy - r.position.y;
    var dGoal := h(dx, dy);
    if dGoal > 0.0 {
      seek := Vec((dx / dGoal) * 4.0, (dy / dGoal) * 4.0);
      seek := Vec(seek.x - r.velocity.x, seek.y - r.velocity.y);
      seek := Limit(h, seek, 0.1);
    }
  }

  /** The sequence shared by separation, alignment and cohesion: normalise, scale to full
      speed, subtract the current velocity, limit. */
  method Finalize(h: Hypot, r: Robot, sum: Vec) returns (force: Vec)
    ensures force == Steer(h, r, sum)
  {
    force := Normalize(h, sum);
    force := Vec(force.x * 4.0, force.y * 4.0);
    force := Vec(force.x - r.velocity.x, force.y - r.velocity.y);
    force := Limit(h, force, 0.1);
  }

  method Alignment(h: Hypot, r: Robot, n: Neighbours) returns (align: Vec)
    ensures align == AlignForce(h, r, n)
  {
    align := n.align;
    if n.countAlign > 0 {
      align := Vec(align.x / n.countAlign as real, align.y / n.countAlign as real);
      align := Finalize(h, r, align);
    }
  }

  method Cohesion(h: Hypot, r: Robot, n: Neighbours) returns (coh: Vec)
    ensures coh == CohForce(h, r, n)
  {
    coh := n.coh;
    if n.countCoh > 0 {
      coh := Vec(coh.x / n.countCoh as real, coh.y / n.countCoh as real);
      coh := Vec(coh.x - r.position.x, coh.y - r.position.y);
      coh := Finalize(h, r, coh);
    }
  }

  method StepRobot(h: Hypot, rs: seq<Robot>, r: Robot, cx: real, cy: real) returns (next: Robot)
    ensures next == BoidsRobot(h, rs, r, Vec(cx, cy))
  {
    var seek := Seek(h, r, cx, cy);
    var n := GatherNeighbours(h, rs, r);
    var sep := Finalize(h, r, n.sep);
    var align := Alignment(h, r, n);
    var coh := Cohesion(h, r, n);
    next := ApplyForces(h, r, n, Vec(cx, cy), Combine(sep, align, coh, seek));
  }

  /** The end of the callback: accelerate, limit the speed, move. */
  method ApplyForces(h: Hypot, r: Robot, n: Neighbours, goal: Vec, accel: Vec) returns (next: Robot)
    requires accel == Acceleration(h, r, n, goal)
    ensures next == Move(h, r, n, goal)
  {
    var v := Limit(h, Vec(r.velocity.x + accel.x, r.velocity.y + accel.y), 4.0);
    next := r.(velocity := v, position := Vec(r.position.x + v.x, r.position.y + v.y));
  }

  method MoveToBoids(h: Hypot, rs: seq<Robot>, cx: real, cy: real) returns (next: seq<Robot>)
    ensures next == Frame(h, rs, Vec(cx, cy))
  {
    next := [];
    for i := 0 to |rs|
      invariant next == Frame(h, rs, Vec(cx, cy))[..i]
    {
      var moved := StepRobot(h, rs, rs[i], cx, cy);
      next := next + [moved];
    }
  }

  // ---------- What the sums mean ----------

  /** The other robots strictly inside the vision radius. */
  function Visible(h: Hypot, rs: seq<Robot>, r: Robot): seq<Robot> {
    if rs == [] then []
    else
      var o := rs[|rs| - 1];
      Visible(h, rs[..|rs| - 1], r)
      + (if o.id != r.id && Dist(h, o.position, r.position) < VISION_RADIUS then [o] else [])
  }

  /** The other robots inside the separation radius, except those on the very same spot. */
  function Crowding(h: Hypot, rs: seq<Robot>, r: Robot): seq<Robot> {
    if rs == [] then []
    else
      var o := rs[|rs| - 1];
      Crowding(h, rs[..|rs| - 1], r)
      + (if o.id != r.id && 0.0 < Dist(h, o.position, r.position) < SEP_RADIUS then [o] else [])
  }

  /** The sum of the unit vectors that point at `p` from each robot of the list. */
  function SumAway(h: Hypot, rs: seq<Robot>, p: Vec): Vec {
    if rs == [] then ZERO
    else Add(SumAway(h, rs[..|rs| - 1], p), Normalize(h, Sub(p, rs[|rs| - 1].position)))
  }

  /** Who is in the two lists... */
  lemma {:induction false} VisibleExactly(h: Hypot, rs: seq<Robot>, r: Robot, o: Robot)
    ensures o in Visible(h, rs, r) <==> o in rs && o.id != r.id && Dist(h, o.position, r.position) < 50.0
    ensures o in Crowding(h, rs, r) <==> o in rs && o.id != r.id && 0.0 < Dist(h, o.position, r.position) < 20.0
  {
    if rs != [] {
      VisibleExactly(h, rs[..|rs| - 1], r, o);
      assert rs == rs[..|rs| - 1] + [rs[|rs| - 1]];
    }
  }

  /** ... and how often: as often as in the whole list. */
  lemma {:induction false} VisibleOften(h: Hypot, rs: seq<Robot>, r: Robot, o: Robot)
    requires o.id != r.id
    ensures Dist(h, o.position, r.position) < 50.0 ==> multiset(Visible(h, rs, r))[o] == multiset(rs)[o]
  {
    if rs != [] {
      VisibleOften(h, rs[..|rs| - 1], r, o);
      assert rs == rs[..|rs| - 1] + [rs[|rs| - 1]];
    }
  }

  lemma {:induction false} CrowdingOften(h: Hypot, rs: seq<Robot>, r: Robot, o: Robot)
    requires o.id != r.id
    ensures 0.0 < Dist(h, o.position, r.position) < 20.0 ==> multiset(Crowding(h, rs, r))[o] == multiset(rs)[o]
  {
    if rs != [] {
      CrowdingOften(h, rs[..|rs| - 1], r, o);
      assert rs == rs[..|rs| - 1] + [rs[|rs| - 1]];
    }
  }

  /** The accumulators of the loop are a count and two sums over the visible robots... */
  lemma {:induction false} VisibleSums(h: Hypot, rs: seq<Robot>, r: Robot)
    requires IsHypot(h)
    ensures var n, seen := Gather(h, rs, r), Visible(h, rs, r);
            && n.countAlign == |seen| == n.countCoh
            && n.align == SumVelocities(seen)
            && n.coh == SumPositions(seen)
  {
    if rs != [] {
      var front, o := rs[..|rs| - 1], rs[|rs| - 1];
      var n, c := Gather(h, front, r), Contribution(h, r, o);
      VisibleSums(h, front, r);
      ContributionMeaning(h, r, o);
      SumsExtend(h, Visible(h, front, r), o, r.position);
      assert Gather(h, rs, r) == Plus(n, c);
      if o.id == r.id || Dist(h, o.position, r.position) >= VISION_RADIUS {
        AddZero(c.align, n.align);
        AddZero(c.coh, n.coh);
        assert Visible(h, rs, r) == Visible(h, front, r);
      } else {
        assert Visible(h, rs, r) == Visible(h, front, r) + [o];
      }
    }
  }

  /** ... and a sum over the crowding ones. */
  lemma {:induction false} CrowdingSum(h: Hypot, rs: seq<Robot>, r: Robot)
    requires IsHypot(h)
    ensures Gather(h, rs, r).sep == SumAway(h, Crowding(h, rs, r), r.position)
  {
    if rs != [] {
      var front, o := rs[..|rs| - 1], rs[|rs| - 1];
      var n, c := Gather(h, front, r), Contribution(h, r, o);
      CrowdingSum(h, front, r);
      ContributionMeaning(h, r, o);
      SumsExtend(h, Crowding(h, front, r), o, r.position);
      assert Gather(h, rs, r) == Plus(n, c);
      if o.id == r.id || !(0.0 < Dist(h, o.position, r.position) < SEP_RADIUS) {
        AddZero(c.sep, n.sep);
        assert Crowding(h, rs, r) == Crowding(h, front, r);
      } else {
        assert Crowding(h, rs, r) == Crowding(h, front, r) + [o];
      }
    }
  }

  lemma SumsExtend(h: Hypot, rs: seq<Robot>, o: Robot, p: Vec)
    ensures SumVelocities(rs + [o]) == Add(SumVelocities(rs), o.velocity)
    ensures SumPositions(rs + [o]) == Add(SumPositions(rs), o.position)
    ensures SumAway(h, rs + [o], p) == Add(SumAway(h, rs, p), Normalize(h, Sub(p, o.position)))
  {
    assert (rs + [o])[..|rs + [o]| - 1] == rs;
  }

  lemma ContributionMeaning(h: Hypot, r: Robot, o: Robot)
    requires IsHypot(h)
    ensures var n, d := Contribution(h, r, o), Dist(h, o.position, r.position);
            && (o.id != r.id && d < VISION_RADIUS
                ==> n.align == o.velocity && n.coh == o.position && n.countAlign == n.countCoh == 1)
            && (o.id == r.id || d >= VISION_RADIUS
                ==> n.align == n.coh == ZERO && n.countAlign == n.countCoh == 0)
            && (o.id != r.id && 0.0 < d < SEP_RADIUS ==> n.sep == Normalize(h, Sub(r.position, o.position)))
            && (o.id == r.id || !(0.0 < d < SEP_RADIUS) ==> n.sep == ZERO)
  {
    DistSymmetric(h, o.position, r.position);
    var d := Dist(h, o.position, r.position);
    if d > 0.0 {
      NegatedQuotient(o.position.x, r.position.x, d);
      NegatedQuotient(o.position.y, r.position.y, d);
    }
  }

  lemma NegatedQuotient(x: real, y: real, d: real)
    requires d != 0.0
    ensures -((x - y) / d) == (y - x) / d
  {
  }

  /** Alignment steers along the mean velocity of the visible robots and cohesion towards their
      mean position; both vanish when nobody is visible.  Separation steers along the summed
      unit vectors away from the crowding robots. */
  lemma ForceMeaning(h: Hypot, rs: seq<Robot>, r: Robot)
    requires IsHypot(h)
    ensures SepForce(h, r, Gather(h, rs, r)) == Steer(h, r, SumAway(h, Crowding(h, rs, r), r.position))
    ensures AlignForce(h, r, Gather(h, rs, r)) == AlongMean(h, r, Visible(h, rs, r))
    ensures CohForce(h, r, Gather(h, rs, r)) == TowardsMean(h, r, Visible(h, rs, r))
  {
    VisibleSums(h, rs, r);
    CrowdingSum(h, rs, r);
    MeanForces(h, r, Gather(h, rs, r), Visible(h, rs, r));
  }

  lemma MeanForces(h: Hypot, r: Robot, n: Neighbours, seen: seq<Robot>)
    requires n.countAlign == |seen| == n.countCoh
    requires n.align == SumVelocities(seen) && n.coh == SumPositions(seen)
    ensures AlignForce(h, r, n) == AlongMean(h, r, seen)
    ensures CohForce(h, r, n) == TowardsMean(h, r, seen)
  {
    if seen != [] {
      assert Mean(n.align, |seen|) == Vec(n.align.x / n.countAlign as real, n.align.y / n.countAlign as real);
      var mean := Mean(n.coh, |seen|);
      assert Sub(mean, r.position)
          == Vec(n.coh.x / n.countCoh as real - r.position.x, n.coh.y / n.countCoh as real - r.position.y);
    }
  }

  function AlongMean(h: Hypot, r: Robot, seen: seq<Robot>): Vec {
    if seen == [] then ZERO else Steer(h, r, Mean(SumVelocities(seen), |seen|))
  }

  function TowardsMean(h: Hypot, r: Robot, seen: seq<Robot>): Vec {
    if seen == [] then ZERO else Steer(h, r, Sub(Mean(SumPositions(seen), |seen|), r.position))
  }

  function Mean(sum: Vec, n: nat): Vec
    requires n > 0
  {
    Vec(sum.x / n as real, sum.y / n as real)
  }

  /** Steering is optimal: of all forces of norm at most 0.1 it comes nearest to turning the
      velocity into full speed in the wanted direction. */
  lemma SteerIsBest(h: Hypot, r: Robot, to: Vec, force: Vec)
    requires IsHypot(h)
    requires Norm(h, force) <= 0.1
    requires Norm(h, to) > 0.0
    ensures var wanted := Scale(to, 4.0 / Norm(h, to));
            && Norm(h, wanted) == 4.0
            && Norm(h, Steer(h, r, to)) <= 0.1
            && Dist(h, Sub(wanted, r.velocity), Steer(h, r, to)) <= Dist(h, Sub(wanted, r.velocity), force)
  {
    var u := Normalize(h, to);
    var wanted := Scale(u, 4.0);
    ZeroNorm(h, to);
    NormalizeIsScale(h, to);
    NormScale(h, u, 4.0);
    FullSpeed(to, Norm(h, to));
    LimitIsNearest(h, Sub(wanted, r.velocity), 0.1, force);
  }

  /** The same holds of the seek force: away from the goal it is the best force of norm at most 0.1
      for turning the velocity into full speed towards the goal... */
  lemma SeekMeaning(h: Hypot, r: Robot, goal: Vec, force: Vec)
    requires IsHypot(h)
    requires Norm(h, force) <= 0.1 && goal != r.position
    ensures Norm(h, Sub(goal, r.position)) > 0.0
    ensures var wanted := Scale(Sub(goal, r.position), 4.0 / Norm(h, Sub(goal, r.position)));
            && Norm(h, wanted) == 4.0
            && Norm(h, SeekForce(h, r, goal)) <= 0.1
            && Dist(h, Sub(wanted, r.velocity), SeekForce(h, r, goal)) <= Dist(h, Sub(wanted, r.velocity), force)
  {
    NotThere(goal, r.position);
    ZeroNorm(h, Sub(goal, r.position));
    NormSquared(h, Sub(goal, r.position));
    SteerIsBest(h, r, Sub(goal, r.position), force);
  }

  /** ... and at the goal it is zero. */
  lemma SeekThere(h: Hypot, r: Robot)
    requires IsHypot(h)
    ensures SeekForce(h, r, r.position) == ZERO
  {
    ZeroNorm(h, Sub(r.position, r.position));
  }

  lemma FullSpeed(to: Vec, n: real)
    requires n > 0.0
    ensures Scale(Scale(to, 1.0 / n), 4.0) == Scale(to, 4.0 / n)
  {
    var i := 1.0 / n;
    assert 4.0 / n == 4.0 * i;
  }

  // ---------- Bounds of a frame ----------

  /** An empty count goes with an untouched accumulator, so a robot that counts nobody adds
      nothing for alignment and cohesion. */
  lemma {:induction false} CountsCoverSums(h: Hypot, rs: seq<Robot>, r: Robot)
    ensures var n := Gather(h, rs, r);
            && n.countAlign == n.countCoh
            && (n.countAlign == 0 ==> n.align == ZERO && n.coh == ZERO)
  {
    if rs != [] {
      CountsCoverSums(h, rs[..|rs| - 1], r);
    }
  }

  /** Each of the four steering vectors has norm at most 0.1. */
  lemma SteeringBounds(h: Hypot, rs: seq<Robot>, r: Robot, goal: Vec)
    requires IsHypot(h)
    ensures var n := Gather(h, rs, r);
            && Norm(h, SepForce(h, r, n)) <= 0.1
            && Norm(h, AlignForce(h, r, n)) <= 0.1
            && Norm(h, CohForce(h, r, n)) <= 0.1
            && Norm(h, SeekForce(h, r, goal)) <= 0.1
  {
    CountsCoverSums(h, rs, r);
    ZeroNorm(h, ZERO);
    forall w: Vec ensures Norm(h, Limit(h, w, 0.1)) <= 0.1 {
      LimitInDisc(h, w, 0.1);
    }
  }

  /** 1.5 * 0.1 + 0.1 + 0.1 + 1.2 * 0.1: no frame accelerates a robot by more than 0.47. */
  lemma AccelerationBound(h: Hypot, rs: seq<Robot>, r: Robot, goal: Vec)
    requires IsHypot(h)
    ensures Norm(h, Acceleration(h, r, Gather(h, rs, r), goal)) <= 0.47
  {
    var n := Gather(h, rs, r);
    SteeringBounds(h, rs, r, goal);
    CombineBound(h, SepForce(h, r, n), AlignForce(h, r, n), CohForce(h, r, n), SeekForce(h, r, goal),
                 0.1);
  }

  lemma CombineIsSum(a: Vec, b: Vec, c: Vec, d: Vec)
    ensures Combine(a, b, c, d) == Add(Add(Scale(a, 1.5), b), Add(c, Scale(d, 1.2)))
  {
  }

  /** The weights add up to 4.7: four equal forces combine to exactly that multiple. */
  lemma CombineTight(h: Hypot, f: Vec)
    requires IsHypot(h)
    ensures Norm(h, Combine(f, f, f, f)) == 4.7 * Norm(h, f)
  {
    assert Combine(f, f, f, f) == Scale(f, 4.7);
    NormScale(h, f, 4.7);
  }

  lemma FullForce(h: Hypot, u: Vec, v: Vec)
    requires IsHypot(h)
    requires Norm(h, u) == 1.0 && v == ZERO
    ensures Limit(h, Sub(Scale(u, 4.0), v), 0.1) == Scale(u, 0.1)
  {
    var w := Scale(u, 4.0);
    assert Sub(w, v) == w;
    NormScale(h, u, 4.0);
    assert Scale(w, 0.1 / 4.0) == Scale(u, 0.1);
  }

  lemma SteerAlong(h: Hypot, r: Robot, to: Vec, u: Vec, k: real)
    requires IsHypot(h)
    requires Norm(h, u) == 1.0 && r.velocity == ZERO
    requires k > 0.0 && to == Scale(u, k)
    ensures Norm(h, to) == k
    ensures Steer(h, r, to) == Scale(u, 0.1)
  {
    NormScale(h, u, k);
    assert Normalize(h, to) == u;
    FullForce(h, u, r.velocity);
  }

  /** What is seen of robots that fly along `u`, one crowding from behind and one ahead. */
  lemma SeenAlong(h: Hypot, p: Vec, u: Vec, behind: Robot, ahead: Robot, c: real, d: real)
    requires IsHypot(h)
    requires Norm(h, u) == 1.0 && p == ZERO && behind.velocity == u == ahead.velocity
    requires behind.position == Scale(u, -c) && 0.0 < c < SEP_RADIUS
    requires ahead.position == Scale(u, d) && SEP_RADIUS <= d < VISION_RADIUS
    ensures Seen(h, p, behind) == Neighbours(u, u, Scale(u, -c), 1, 1)
    ensures Seen(h, p, ahead) == Neighbours(p, u, Scale(u, d), 1, 1)
  {
    NormScale(h, u, -c);
    NormScale(h, u, d);
    assert Sub(behind.position, p) == behind.position && Sub(ahead.position, p) == ahead.position;
    UnitAway(u.x, behind.position.x, p.x, c);
    UnitAway(u.y, behind.position.y, p.y, c);
  }

  lemma UnitAway(x: real, w: real, z: real, c: real)
    requires c > 0.0 && w == x * -c && z == 0.0
    ensures -((w - z) / c) == x
  {
    assert w - z == -(x * c);
    assert -(x * c) / c == -x;
  }

  lemma PlusNobody(a: Neighbours, c: Neighbours)
    requires a == NOBODY
    ensures Plus(a, c) == c
  {
    AddZero(a.sep, c.sep);
    AddZero(a.align, c.align);
    AddZero(a.coh, c.coh);
  }

  lemma GatherThree(h: Hypot, rs: seq<Robot>, r: Robot)
    requires |rs| == 3 && rs[0] == r && rs[1].id != r.id && rs[2].id != r.id
    ensures Gather(h, rs, r) == Plus(Seen(h, r.position, rs[1]), Seen(h, r.position, rs[2]))
  {
    GatherSecond(h, rs, r, Seen(h, r.position, rs[1]));
    GatherStep(h, rs, r, 2);
    assert rs[..3] == rs;
  }

  lemma GatherSecond(h: Hypot, rs: seq<Robot>, r: Robot, b: Neighbours)
    requires |rs| >= 2 && rs[0].id == r.id && rs[1].id != r.id && b == Seen(h, r.position, rs[1])
    ensures Gather(h, rs[..2], r) == b
  {
    GatherFirst(h, rs, r);
    GatherStep(h, rs, r, 1);
    PlusNobody(Gather(h, rs[..1], r), b);
  }

  lemma GatherFirst(h: Hypot, rs: seq<Robot>, r: Robot)
    requires rs != [] && rs[0].id == r.id
    ensures Gather(h, rs[..1], r) == NOBODY
  {
    GatherStep(h, rs, r, 0);
    PlusNobody(Gather(h, rs[..0], r), Contribution(h, r, rs[0]));
  }

  lemma PlusAlong(u: Vec, z: Vec, c: real, d: real)
    requires z == ZERO
    ensures Plus(Neighbours(u, u, Scale(u, -c), 1, 1), Neighbours(z, u, Scale(u, d), 1, 1))
         == Neighbours(u, Scale(u, 2.0), Scale(u, d - c), 2, 2)
  {
    AddZero(z, u);
  }

  lemma ForcesAlong(h: Hypot, r: Robot, n: Neighbours, goal: Vec, u: Vec, k: real, g: real)
    requires IsHypot(h)
    requires Norm(h, u) == 1.0 && r.position == ZERO && r.velocity == ZERO
    requires k > 0.0 && n == Neighbours(u, Scale(u, 2.0), Scale(u, k), 2, 2)
    requires g > 0.0 && goal == Scale(u, g)
    ensures SepForce(h, r, n) == AlignForce(h, r, n) == CohForce(h, r, n) == SeekForce(h, r, goal)
         == Scale(u, 0.1)
  {
    var p, m := r.position, n.countCoh;
    var to := Vec(n.coh.x / m as real - p.x, n.coh.y / m as real - p.y);
    SteerAlong(h, r, n.sep, u, 1.0);
    HalfAlong(n.align, u, 2.0, m);
    HalfAlong(n.coh, u, k, m);
    SteerAlong(h, r, Vec(n.align.x / m as real, n.align.y / m as real), u, 1.0);
    assert to == Scale(u, k / 2.0);
    SteerAlong(h, r, to, u, k / 2.0);
    assert Sub(goal, p) == goal;
    SteerAlong(h, r, goal, u, g);
  }

  lemma HalfAlong(w: Vec, u: Vec, k: real, m: nat)
    requires m == 2 && w == Scale(u, k)
    ensures Vec(w.x / m as real, w.y / m as real) == Scale(u, k / 2.0)
  {
  }

  /** The bound 0.47 is attained, in every direction u: a robot at rest is pushed by one crowding
      robot behind it, drawn by the mean of the visible ones, which fly along u, and sent to a goal
      ahead.  `c`, `d` and `g` are the distances of the three. */
  lemma BoundAttained(h: Hypot, u: Vec, c: real, d: real, g: real) returns (rs: seq<Robot>, goal: Vec)
    requires IsHypot(h)
    requires Norm(h, u) == 1.0 && 0.0 < c < SEP_RADIUS <= d < VISION_RADIUS && g > 0.0
    ensures |rs| == 3 && rs[0].id == 0 && rs[1].id == 1 && rs[2].id == 2
    ensures Norm(h, rs[1].velocity) == Norm(h, rs[2].velocity) == 1.0 && rs[0].velocity == ZERO
    ensures Norm(h, Acceleration(h, rs[0], Gather(h, rs, rs[0]), goal)) == 0.47
  {
    var r, behind, ahead := Robot(0, ZERO, ZERO), Robot(1, Scale(u, -c), u), Robot(2, Scale(u, d), u);
    rs, goal := [r, behind, ahead], Scale(u, g);
    SeenAlong(h, r.position, u, behind, ahead, c, d);
    PlusAlong(u, r.position, c, d);
    GatherThree(h, rs, r);
    ForcesAlong(h, r, Gather(h, rs, r), goal, u, d - c, g);
    CombineTight(h, Scale(u, 0.1));
    NormScale(h, u, 0.1);
  }

  lemma CombineBound(h: Hypot, a: Vec, b: Vec, c: Vec, d: Vec, bound: real)
    requires IsHypot(h)
    requires Norm(h, a) <= bound && Norm(h, b) <= bound && Norm(h, c) <= bound && Norm(h, d) <= bound
    ensures Norm(h, Combine(a, b, c, d)) <= 4.7 * bound
  {
    var sep, seek := Scale(a, 1.5), Scale(d, 1.2);
    CombineIsSum(a, b, c, d);
    NormScale(h, a, 1.5);
    NormScale(h, d, 1.2);
    Triangle(h, Add(sep, b), Add(c, seek));
    Triangle(h, sep, b);
    Triangle(h, c, seek);
  }

  /** The law of motion: separation from the crowding robots with weight 1.5, alignment with the
      mean velocity and cohesion to the mean position of the visible ones with weight 1, and the
      goal with weight 1.2 change the velocity, which is limited to 4 and then moves the robot. */
  lemma FrameLaw(h: Hypot, rs: seq<Robot>, goal: Vec, i: nat)
    requires IsHypot(h)
    requires i < |rs|
    ensures var r, s, seen := rs[i], Frame(h, rs, goal)[i], Visible(h, rs, rs[i]);
            var sep := Steer(h, r, SumAway(h, Crowding(h, rs, r), r.position));
            var align := if seen == [] then ZERO else Steer(h, r, Scale(SumVelocities(seen), 1.0 / |seen| as real));
            var coh := if seen == [] then ZERO
                       else Steer(h, r, Sub(Scale(SumPositions(seen), 1.0 / |seen| as real), r.position));
            var force := Add(Add(Scale(sep, 1.5), align), Add(coh, Scale(SeekForce(h, r, goal), 1.2)));
            && s.id == r.id
            && s.velocity == Limit(h, Add(r.velocity, force), 4.0)
            && s.position == Add(r.position, s.velocity)
  {
    var r, seen, n := rs[i], Visible(h, rs, rs[i]), Gather(h, rs, rs[i]);
    ForceMeaning(h, rs, r);
    CombineIsSum(SepForce(h, r, n), AlignForce(h, r, n), CohForce(h, r, n), SeekForce(h, r, goal));
    if seen != [] {
      MeanIsScale(SumVelocities(seen), |seen|, 1.0 / |seen| as real);
      MeanIsScale(SumPositions(seen), |seen|, 1.0 / |seen| as real);
    }
  }

  lemma MeanIsScale(sum: Vec, n: nat, c: real)
    requires n > 0 && c == 1.0 / n as real
    ensures Mean(sum, n) == Scale(sum, c)
  {
    var m := n as real;
    assert m * c == 1.0;
    assert sum.x / m == sum.x * c by { assert (sum.x * c) * m == sum.x * (m * c); }
    assert sum.y / m == sum.y * c by { assert (sum.y * c) * m == sum.y * (m * c); }
  }

  /** After a frame every robot moves by its new velocity, at speed at most 4; a robot that
      kept the speed limit changes its velocity by at most 0.47. */
  lemma FrameBounds(h: Hypot, rs: seq<Robot>, goal: Vec, i: nat)
    requires IsHypot(h)
    requires i < |rs|
    ensures var r, s := rs[i], Frame(h, rs, goal)[i];
            && s.id == r.id
            && Norm(h, s.velocity) <= 4.0
            && Dist(h, s.position, r.position) == Norm(h, s.velocity)
            && (Norm(h, r.velocity) <= 4.0 ==> Dist(h, s.velocity, r.velocity) <= 0.47)
  {
    var r, s := rs[i], Frame(h, rs, goal)[i];
    var a := Acceleration(h, r, Gather(h, rs, r), goal);
    LimitInDisc(h, Add(r.velocity, a), 4.0);
    assert Sub(s.position, r.position) == s.velocity;
    if Norm(h, r.velocity) <= 4.0 {
      AccelerationBound(h, rs, r, goal);
      LimitNonExpansive(h, Add(r.velocity, a), r.velocity, 4.0);
      assert Sub(Add(r.velocity, a), r.velocity) == a;
    }
  }
}
