/** Flocking robots that stand on one point with one velocity, as after registration: they stay on
    one point, and braking keeps them slow whatever goals they are given. */
module Coincident {
  import opened Vectors
  import opened Boids
  import opened BoidsRuns

  /** All robots share one position and one velocity. */
  ghost predicate OnePoint(rs: seq<Robot>, p: Vec, v: Vec) {
    forall i :: 0 <= i < |rs| ==> rs[i].position == p && rs[i].velocity == v
  }

  /** Not all ids are the same, so that every robot has a companion. */
  ghost predicate Several(rs: seq<Robot>) {
    exists i, j :: 0 <= i < |rs| && 0 <= j < |rs| && rs[i].id != rs[j].id
  }

  // ---------- One frame of companions ----------

  lemma {:induction false} SumsOnePoint(rs: seq<Robot>, p: Vec, v: Vec)
    requires OnePoint(rs, p, v)
    ensures SumPositions(rs) == Scale(p, |rs| as real)
    ensures SumVelocities(rs) == Scale(v, |rs| as real)
  {
    if rs == [] {
      ScaleNothing(p, 0.0);
      ScaleNothing(v, 0.0);
    } else {
      var front := rs[..|rs| - 1];
      SumsOnePoint(front, p, v);
      ScaleOneMore(p, |front| as real);
      ScaleOneMore(v, |front| as real);
    }
  }

  lemma ScaleNothing(v: Vec, k: real)
    requires k == 0.0
    ensures Scale(v, k) == ZERO
  {
  }

  lemma ScaleOneMore(v: Vec, k: real)
    ensures Add(Scale(v, k), v) == Scale(v, k + 1.0)
  {
  }

  lemma MeansOnePoint(rs: seq<Robot>, p: Vec, v: Vec)
    requires OnePoint(rs, p, v) && rs != []
    ensures Mean(SumPositions(rs), |rs|) == p && Mean(SumVelocities(rs), |rs|) == v
  {
    SumsOnePoint(rs, p, v);
    MeanOfEqual(p, |rs| as real);
    MeanOfEqual(v, |rs| as real);
  }

  lemma MeanOfEqual(v: Vec, k: real)
    requires k > 0.0
    ensures Vec(Scale(v, k).x / k, Scale(v, k).y / k) == v
  {
  }

  /** On one point nobody repels, and everybody with another id is seen. */
  lemma Company(h: Hypot, rs: seq<Robot>, r: Robot)
    requires IsHypot(h)
    requires OnePoint(rs, r.position, r.velocity) && Several(rs)
    ensures Crowding(h, rs, r) == []
    ensures Visible(h, rs, r) != [] && OnePoint(Visible(h, rs, r), r.position, r.velocity)
  {
    var seen, near := Visible(h, rs, r), Crowding(h, rs, r);
    ZeroNorm(h, Sub(r.position, r.position));
    if near != [] {
      VisibleExactly(h, rs, r, near[0]);
    }
    forall i | 0 <= i < |seen| ensures seen[i].position == r.position && seen[i].velocity == r.velocity {
      VisibleExactly(h, rs, r, seen[i]);
    }
    var a, b :| 0 <= a < |rs| && 0 <= b < |rs| && rs[a].id != rs[b].id;
    VisibleExactly(h, rs, r, if rs[a].id != r.id then rs[a] else rs[b]);
  }

  /** The brake, `limit(-v, 0.1)`: what steering along the zero vector amounts to. */
  function Brake(h: Hypot, v: Vec): Vec {
    Limit(h, Scale(v, -1.0), 0.1)
  }

  lemma SteerNowhere(h: Hypot, r: Robot, z: Vec)
    requires IsHypot(h)
    requires z == ZERO
    ensures Steer(h, r, z) == Brake(h, r.velocity)
  {
    BrakeForce(h, r);
  }

  /** Companions brake twice, once by separation and once by cohesion, and push ahead once. */
  lemma CompanionForces(h: Hypot, rs: seq<Robot>, r: Robot)
    requires IsHypot(h)
    requires OnePoint(rs, r.position, r.velocity) && Several(rs)
    ensures var n := Gather(h, rs, r);
            && SepForce(h, r, n) == CohForce(h, r, n) == Brake(h, r.velocity)
            && AlignForce(h, r, n) == Steer(h, r, r.velocity)
  {
    ForceMeaning(h, rs, r);
    Company(h, rs, r);
    MeansOnePoint(Visible(h, rs, r), r.position, r.velocity);
    SteerNowhere(h, r, SumAway(h, [], r.position));
    SteerNowhere(h, r, Sub(r.position, r.position));
  }

  /** The next velocity of a robot with companions depends neither on how many there are nor on
      its id. */
  function PackVelocity(h: Hypot, p: Vec, v: Vec, goal: Vec): Vec {
    var r := Robot(0, p, v);
    Limit(h, Add(v, Combine(Brake(h, v), Steer(h, r, v), Brake(h, v), SeekForce(h, r, goal))), 4.0)
  }

  lemma CompanionVelocity(h: Hypot, rs: seq<Robot>, r: Robot, goal: Vec)
    requires IsHypot(h)
    requires OnePoint(rs, r.position, r.velocity) && Several(rs)
    ensures NextVelocity(h, r, Gather(h, rs, r), goal) == PackVelocity(h, r.position, r.velocity, goal)
  {
    CompanionForces(h, rs, r);
    assert Robot(0, r.position, r.velocity) == r.(id := 0);
  }

  /** A swarm on one point stays on one point. */
  lemma PackFrame(h: Hypot, rs: seq<Robot>, p: Vec, v: Vec, goal: Vec)
    requires IsHypot(h)
    requires OnePoint(rs, p, v) && Several(rs)
    ensures var w := PackVelocity(h, p, v, goal);
            OnePoint(Frame(h, rs, goal), Add(p, w), w) && Several(Frame(h, rs, goal))
  {
    var w, next := PackVelocity(h, p, v, goal), Frame(h, rs, goal);
    var a, b :| 0 <= a < |rs| && 0 <= b < |rs| && rs[a].id != rs[b].id;
    assert next[a].id != next[b].id;
    forall i | 0 <= i < |rs| ensures next[i].position == Add(p, w) && next[i].velocity == w {
      CompanionVelocity(h, rs, rs[i], goal);
    }
  }

  // ---------- The speed of a pack ----------

  function Clamp(x: real, m: real): real {
    if x > m then m else if x < -m then -m else x
  }

  /** What braking and pushing ahead make of a speed. */
  function Pushed(n: real): real {
    n - 2.5 * Min(n, 0.1) + (if n == 0.0 then 0.0 else Clamp(4.0 - n, 0.1))
  }

  lemma BrakeIsScale(h: Hypot, v: Vec, n: real) returns (t: real)
    requires IsHypot(h)
    requires n == Norm(h, v)
    ensures Brake(h, v) == Scale(v, -t) && t * n == Min(n, 0.1)
  {
    NormSquared(h, v);
    var b := LimitOfScale(h, v, n, -1.0, -n, 0.1);
    t := -b;
    Negated(b, n);
  }

  lemma Negated(b: real, n: real)
    ensures (-b) * n == -(b * n)
  {
  }

  lemma AheadIsScale(h: Hypot, r: Robot, n: real) returns (a: real)
    requires IsHypot(h)
    requires n == Norm(h, r.velocity)
    ensures Steer(h, r, r.velocity) == Scale(r.velocity, a)
    ensures a * n == if n == 0.0 then 0.0 else Clamp(4.0 - n, 0.1)
  {
    var v := r.velocity;
    ZeroNorm(h, v);
    if n == 0.0 {
      SteerNowhere(h, r, v);
      AtRest(h, v);
      a := 1.0;
      ScaleByOne(v);
    } else {
      NormSquared(h, v);
      a := 4.0 / n - 1.0;
      assert a * n == 4.0 - n;
      FullSpeed(v, n);
      NormalizeIsScale(h, v);
      assert Sub(Scale(v, 4.0 / n), v) == Scale(v, a);
      a := LimitOfScale(h, v, n, a, 4.0 - n, 0.1);
    }
  }

  lemma ScaleByOne(v: Vec)
    ensures Scale(v, 1.0) == v
  {
  }

  /** Limiting a multiple of `v`; its signed length is `c`. */
  lemma LimitOfScale(h: Hypot, v: Vec, n: real, a: real, c: real, max: real) returns (b: real)
    requires IsHypot(h)
    requires 0.0 < max && n == Norm(h, v) && c == a * n
    ensures Limit(h, Scale(v, a), max) == Scale(v, b) && b * n == Clamp(c, max)
  {
    var m := Norm(h, Scale(v, a));
    ScaledSpeed(h, v, a, n);
    b := a;
    if m > max {
      var t := max / m;
      b := a * t;
      ScaleTwice(v, a, t);
      ScaledQuotient(a, n, c, m, t, max, b);
    }
  }

  lemma ScaledSpeed(h: Hypot, v: Vec, a: real, n: real)
    requires IsHypot(h)
    requires n == Norm(h, v)
    ensures Norm(h, Scale(v, a)) == Abs(a * n)
  {
    NormSquared(h, v);
    NormScale(h, v, a);
    ScaledAbs(a, n);
  }

  lemma ScaleTwice(v: Vec, a: real, b: real)
    ensures Scale(Scale(v, a), b) == Scale(v, a * b)
  {
  }

  lemma ScaledQuotient(a: real, n: real, c: real, m: real, t: real, max: real, b: real)
    requires c == a * n && m == Abs(c) && m > max > 0.0 && t == max / m && b == a * t
    ensures b * n == Clamp(c, max)
  {
    assert b * n == c * t;
    assert m * t == max;
  }

  /** Braking twice and a half and being pushed ahead, a pack turns its speed v into at most
      max(0.22, v - 0.03), whatever the goal. */
  lemma PackSpeed(h: Hypot, p: Vec, v: Vec, goal: Vec)
    requires IsHypot(h)
    ensures Norm(h, PackVelocity(h, p, v, goal)) <= Max(0.22, Norm(h, v) - 0.03)
  {
    var r := Robot(0, p, v);
    PackIsThrust(h, p, v, goal);
    ThrustSpeed(h, v);
    NormSquared(h, v);
    PushedBound(Norm(h, v));
    SeekBound(h, r, goal);
    SumBound(h, Thrust(h, v), SeekForce(h, r, goal));
    LimitInDisc(h, Add(Thrust(h, v), Scale(SeekForce(h, r, goal), 1.2)), 4.0);
  }

  /** The velocity left by the brakes and the push, before the goal is sought. */
  function Thrust(h: Hypot, v: Vec): Vec {
    Add(v, Add(Scale(Brake(h, v), 2.5), Steer(h, Robot(0, v, v), v)))
  }

  lemma PackIsThrust(h: Hypot, p: Vec, v: Vec, goal: Vec)
    ensures PackVelocity(h, p, v, goal)
         == Limit(h, Add(Thrust(h, v), Scale(SeekForce(h, Robot(0, p, v), goal), 1.2)), 4.0)
  {
    var ahead, seek := Steer(h, Robot(0, v, v), v), SeekForce(h, Robot(0, p, v), goal);
    PackSum(v, Brake(h, v), ahead, seek);
    assert ahead == Steer(h, Robot(0, p, v), v);
  }

  lemma PackSum(v: Vec, brake: Vec, ahead: Vec, seek: Vec)
    ensures Add(v, Combine(brake, ahead, brake, seek))
         == Add(Add(v, Add(Scale(brake, 2.5), ahead)), Scale(seek, 1.2))
  {
  }

  lemma ThrustSpeed(h: Hypot, v: Vec)
    requires IsHypot(h)
    ensures Norm(h, Thrust(h, v)) == Abs(Pushed(Norm(h, v)))
  {
    var n := Norm(h, v);
    var t := BrakeIsScale(h, v, n);
    var a := AheadIsScale(h, Robot(0, v, v), n);
    ThrustNorm(h, v, Brake(h, v), t, Steer(h, Robot(0, v, v), v), a, n);
  }

  lemma ThrustNorm(h: Hypot, v: Vec, brake: Vec, t: real, ahead: Vec, a: real, n: real)
    requires IsHypot(h)
    requires brake == Scale(v, -t) && ahead == Scale(v, a) && n == Norm(h, v)
    requires t * n == Min(n, 0.1) && a * n == if n == 0.0 then 0.0 else Clamp(4.0 - n, 0.1)
    ensures Norm(h, Add(v, Add(Scale(brake, 2.5), ahead))) == Abs(Pushed(n))
  {
    var k := 1.0 - 2.5 * t + a;
    ThrustIsScale(v, brake, t, ahead, a, k);
    ScaledNorm(h, v, t, a, k, n);
  }

  lemma ThrustIsScale(v: Vec, brake: Vec, t: real, ahead: Vec, a: real, k: real)
    requires brake == Scale(v, -t) && ahead == Scale(v, a) && k == 1.0 - 2.5 * t + a
    ensures Add(v, Add(Scale(brake, 2.5), ahead)) == Scale(v, k)
  {
  }

  lemma SeekBound(h: Hypot, r: Robot, goal: Vec)
    requires IsHypot(h)
    ensures Norm(h, SeekForce(h, r, goal)) <= 0.1
  {
    SteeringBounds(h, [], r, goal);
  }

  lemma ScaledNorm(h: Hypot, v: Vec, t: real, a: real, k: real, n: real)
    requires IsHypot(h)
    requires n == Norm(h, v) && k == 1.0 - 2.5 * t + a
    requires t * n == Min(n, 0.1) && a * n == if n == 0.0 then 0.0 else Clamp(4.0 - n, 0.1)
    ensures Norm(h, Scale(v, k)) == Abs(Pushed(n))
  {
    ScaledSpeed(h, v, k, n);
    assert k * n == n - 2.5 * (t * n) + a * n;
  }

  lemma SumBound(h: Hypot, w: Vec, seek: Vec)
    requires IsHypot(h)
    requires Norm(h, seek) <= 0.1
    ensures Norm(h, Add(w, Scale(seek, 1.2))) <= Norm(h, w) + 0.12
  {
    NormScale(h, seek, 1.2);
    Triangle(h, w, Scale(seek, 1.2));
  }

  lemma PushedBound(n: real)
    requires 0.0 <= n
    ensures Abs(Pushed(n)) + 0.12 <= Max(0.22, n - 0.03)
  {
  }

  /** Whatever goals it is given, a swarm on one point stays on one point, and its speed is at most
      max(0.22, v - 0.03k) after k frames. */
  lemma {:induction false} PackRun(h: Hypot, rs: seq<Robot>, p: Vec, v: Vec, goals: seq<Vec>)
    returns (q: Vec, w: Vec)
    requires IsHypot(h)
    requires OnePoint(rs, p, v) && Several(rs)
    ensures |Run(h, rs, goals)| == |rs| && OnePoint(Run(h, rs, goals), q, w)
    ensures Norm(h, w) <= Max(0.22, Norm(h, v) - 0.03 * |goals| as real)
    decreases |goals|
  {
    if goals == [] {
      q, w := p, v;
    } else {
      var x := PackVelocity(h, p, v, goals[0]);
      PackFrame(h, rs, p, v, goals[0]);
      PackSpeed(h, p, v, goals[0]);
      q, w := PackRun(h, Frame(h, rs, goals[0]), Add(p, x), x, goals[1..]);
      SpeedsFall(Norm(h, v), Norm(h, x), Norm(h, w), (|goals| - 1) as real);
    }
  }

  lemma SpeedsFall(u: real, v: real, w: real, k: real)
    requires 0.0 <= k
    requires v <= Max(0.22, u - 0.03) && w <= Max(0.22, v - 0.03 * k)
    ensures w <= Max(0.22, u - 0.03 * (k + 1.0))
  {
  }
}
