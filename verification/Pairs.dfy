/** Two robots face to face: the exact frames of both swarm modes. */
module Pairs {
  import opened Vectors
  import Boids
  import BoidsRuns
  import PotentialField

  /** The unit vector from the second robot to the first. */
  function Away(h: Hypot, a: Robot, b: Robot): Vec {
    Normalize(h, Sub(a.position, b.position))
  }

  lemma TwoFolds(a: Robot, b: Robot)
    ensures [a, b][..1] == [a] && [a][..0] == [] && [a, b] == [a] + [b]
    ensures |[a, b]| - 1 == 1 && |[a]| - 1 == 0
  {
  }

  // ---------- Flocking ----------

  lemma SeenOfTwo(h: Hypot, a: Robot, b: Robot, d: real)
    requires IsHypot(h)
    requires a.id != b.id && d == Dist(h, a.position, b.position) > 0.0
    ensures Boids.Visible(h, [a, b], a) == if d < 50.0 then [b] else []
    ensures Boids.Crowding(h, [a, b], a) == if d < 20.0 then [b] else []
  {
    DistSymmetric(h, a.position, b.position);
    TwoFolds(a, b);
    NotSelf(h, a);
    LastSeen(h, [a], a, b, d);
  }

  lemma NotSelf(h: Hypot, a: Robot)
    ensures Boids.Visible(h, [a], a) == [] && Boids.Crowding(h, [a], a) == []
  {
    assert [a][..0] == [];
  }

  lemma LastSeen(h: Hypot, front: seq<Robot>, a: Robot, b: Robot, d: real)
    requires a.id != b.id && d == Dist(h, b.position, a.position) > 0.0
    ensures Boids.Visible(h, front + [b], a) == Boids.Visible(h, front, a) + if d < 50.0 then [b] else []
    ensures Boids.Crowding(h, front + [b], a) == Boids.Crowding(h, front, a) + if d < 20.0 then [b] else []
  {
    assert (front + [b])[..|front|] == front;
  }

  lemma AloneSums(h: Hypot, b: Robot, p: Vec)
    ensures Boids.SumAway(h, [b], p) == Normalize(h, Sub(p, b.position))
    ensures Boids.Mean(SumVelocities([b]), 1) == b.velocity && Boids.Mean(SumPositions([b]), 1) == b.position
  {
    assert [b][..0] == [];
    AddZero(Boids.SumAway(h, [], p), Normalize(h, Sub(p, b.position)));
    AddZero(SumVelocities([]), b.velocity);
    AddZero(SumPositions([]), b.position);
  }

  lemma SteerRest(h: Hypot, r: Robot, z: Vec)
    requires IsHypot(h)
    requires r.velocity == ZERO && z == ZERO
    ensures Boids.Steer(h, r, z) == ZERO
  {
    BoidsRuns.BrakeForce(h, r);
    BoidsRuns.AtRest(h, r.velocity);
  }

  lemma AwayUnit(h: Hypot, a: Robot, b: Robot, d: real, u: Vec)
    requires IsHypot(h)
    requires d == Dist(h, a.position, b.position) > 0.0 && u == Away(h, a, b)
    ensures Norm(h, u) == 1.0
    ensures Sub(a.position, b.position) == Scale(u, d)
    ensures Sub(b.position, a.position) == Scale(Scale(u, -1.0), d)
    ensures Norm(h, Scale(u, -1.0)) == 1.0
  {
    var w := Sub(a.position, b.position);
    ZeroNorm(h, w);
    NormalizeIsScale(h, w);
    assert (w.x / d) * d == w.x && (w.y / d) * d == w.y;
    NormScale(h, u, -1.0);
  }

  lemma SeparationOfTwo(h: Hypot, a: Robot, b: Robot, d: real, u: Vec)
    requires IsHypot(h)
    requires a.id != b.id && d == Dist(h, a.position, b.position) > 0.0 && u == Away(h, a, b)
    requires a.velocity == ZERO
    ensures Boids.Steer(h, a, Boids.SumAway(h, Boids.Crowding(h, [a, b], a), a.position))
         == (if d < 20.0 then Scale(u, 0.1) else ZERO)
  {
    SeenOfTwo(h, a, b, d);
    if d < 20.0 {
      AwayUnit(h, a, b, d, u);
      AloneSums(h, b, a.position);
      ByOne(u);
      Boids.SteerAlong(h, a, u, u, 1.0);
    } else {
      SteerRest(h, a, Boids.SumAway(h, [], a.position));
    }
  }

  lemma CohesionOfTwo(h: Hypot, a: Robot, b: Robot, d: real, u: Vec)
    requires IsHypot(h)
    requires a.id != b.id && d == Dist(h, a.position, b.position) > 0.0 && u == Away(h, a, b)
    requires a.velocity == ZERO && b.velocity == ZERO
    ensures var seen := Boids.Visible(h, [a, b], a);
            && (if d < 50.0 then |seen| == 1 else seen == [])
            && (seen != [] ==>
                  && Boids.Steer(h, a, Scale(SumVelocities(seen), 1.0 / |seen| as real)) == ZERO
                  && Boids.Steer(h, a, Sub(Scale(SumPositions(seen), 1.0 / |seen| as real), a.position))
                     == Scale(u, -0.1))
  {
    SeenOfTwo(h, a, b, d);
    if d < 50.0 {
      AwayUnit(h, a, b, d, u);
      AloneSums(h, b, a.position);
      Boids.MeanIsScale(SumVelocities([b]), 1, 1.0 / 1 as real);
      Boids.MeanIsScale(SumPositions([b]), 1, 1.0 / 1 as real);
      SteerRest(h, a, b.velocity);
      Boids.SteerAlong(h, a, Sub(b.position, a.position), Scale(u, -1.0), d);
      Reversed(u);
    }
  }

  lemma ByOne(u: Vec)
    ensures u == Scale(u, 1.0)
  {
  }

  lemma Reversed(u: Vec)
    ensures Scale(Scale(u, -1.0), 0.1) == Scale(u, -0.1)
  {
  }

  /** Two robots at rest, the first on its goal: closer than 20 it flies off at 0.05, from 20 to 50
      it comes nearer at 0.1, and from 50 on it does not move. */
  lemma TwoAtRest(h: Hypot, a: Robot, b: Robot, d: real, u: Vec)
    requires IsHypot(h)
    requires a.id != b.id && d == Dist(h, a.position, b.position) > 0.0 && u == Away(h, a, b)
    requires a.velocity == ZERO && b.velocity == ZERO
    ensures Norm(h, u) == 1.0
    ensures Boids.Frame(h, [a, b], a.position)[0].velocity
         == Scale(u, if d < 20.0 then 0.05 else if d < 50.0 then -0.1 else 0.0)
  {
    hide *;
    var k := if d < 20.0 then 0.05 else if d < 50.0 then -0.1 else 0.0;
    AwayUnit(h, a, b, d, u);
    SeparationOfTwo(h, a, b, d, u);
    CohesionOfTwo(h, a, b, d, u);
    Boids.SeekThere(h, a);
    Boids.FrameLaw(h, [a, b], a.position, 0);
    RestSum(a.velocity, u, d, k);
    SmallSpeed(h, u, k);
  }

  lemma SmallSpeed(h: Hypot, u: Vec, k: real)
    requires IsHypot(h)
    requires Norm(h, u) == 1.0 && -1.0 <= k <= 1.0
    ensures Limit(h, Scale(u, k), 4.0) == Scale(u, k)
  {
    NormScale(h, u, k);
  }

  lemma RestSum(z: Vec, u: Vec, d: real, k: real)
    requires z == ZERO
    requires k == if d < 20.0 then 0.05 else if d < 50.0 then -0.1 else 0.0
    ensures var sep, coh := if d < 20.0 then Scale(u, 0.1) else z, if d < 50.0 then Scale(u, -0.1) else z;
            Add(z, Add(Add(Scale(sep, 1.5), z), Add(coh, Scale(z, 1.2)))) == Scale(u, k)
  {
  }

  // ---------- The potential field ----------

  /** Two close robots near the goal push each other apart by 240/d^2 each. */
  lemma TwoRepel(h: Hypot, a: Robot, b: Robot, goal: Vec, d: real, u: Vec)
    requires IsHypot(h)
    requires a.id != b.id && d == Dist(h, a.position, b.position) && 0.0 < d < 20.0 && u == Away(h, a, b)
    requires Dist(h, goal, a.position) <= 5.0 && Dist(h, goal, b.position) <= 5.0
    ensures var next, m := PotentialField.Frame(h, [a, b], goal), 240.0 / (d * d);
            && next[0].position == Add(a.position, Scale(u, m))
            && next[1].position == Add(b.position, Scale(u, -m))
            && Dist(h, next[0].position, next[1].position) == d + 2.0 * m
  {
    var m := 240.0 / (d * d);
    AwayUnit(h, a, b, d, u);
    DistSymmetric(h, a.position, b.position);
    OpposedAway(h, a, b, u);
    OnePush(h, a, b, goal, d, u, m);
    OtherPush(h, a, b, goal, d, Scale(u, -1.0), m);
    Negated(u, m);
    MulPositive(d, d, d * d);
    assert m > 0.0;
    Apart(a.position, b.position, u, d, m);
    NormScale(h, u, d + 2.0 * m);
  }

  lemma OpposedAway(h: Hypot, a: Robot, b: Robot, u: Vec)
    requires IsHypot(h)
    requires Dist(h, a.position, b.position) > 0.0 && u == Away(h, a, b)
    ensures Away(h, b, a) == Scale(u, -1.0)
  {
    DistSymmetric(h, a.position, b.position);
    var d := Dist(h, a.position, b.position);
    Boids.NegatedQuotient(a.position.x, b.position.x, d);
    Boids.NegatedQuotient(a.position.y, b.position.y, d);
  }

  lemma OnePush(h: Hypot, a: Robot, b: Robot, goal: Vec, d: real, u: Vec, m: real)
    requires IsHypot(h)
    requires a.id != b.id && d == Dist(h, a.position, b.position) && 0.0 < d < 20.0 && u == Away(h, a, b)
    requires Dist(h, goal, a.position) <= 5.0 && m == 240.0 / (d * d)
    ensures PotentialField.Frame(h, [a, b], goal)[0].position == Add(a.position, Scale(u, m))
  {
    CloseOfTwo(h, a, b, d);
    NearGoal(h, [a, b], goal, 0, b, d, u, m);
  }

  lemma OtherPush(h: Hypot, a: Robot, b: Robot, goal: Vec, d: real, u: Vec, m: real)
    requires IsHypot(h)
    requires a.id != b.id && d == Dist(h, b.position, a.position) && 0.0 < d < 20.0 && u == Away(h, b, a)
    requires Dist(h, goal, b.position) <= 5.0 && m == 240.0 / (d * d)
    ensures PotentialField.Frame(h, [a, b], goal)[1].position == Add(b.position, Scale(u, m))
  {
    CloseOfOther(h, a, b, d);
    NearGoal(h, [a, b], goal, 1, a, d, u, m);
  }

  lemma CloseOfTwo(h: Hypot, a: Robot, b: Robot, d: real)
    requires a.id != b.id && d == Dist(h, a.position, b.position) && 0.0 < d < 20.0
    ensures PotentialField.Close(h, [a, b], a) == [b]
  {
    TwoFolds(a, b);
    assert PotentialField.Close(h, [a], a) == [];
  }

  lemma CloseOfOther(h: Hypot, a: Robot, b: Robot, d: real)
    requires a.id != b.id && d == Dist(h, b.position, a.position) && 0.0 < d < 20.0
    ensures PotentialField.Close(h, [a, b], b) == [a]
  {
    TwoFolds(a, b);
    assert PotentialField.Close(h, [], b) == [];
    assert PotentialField.Close(h, [a], b) == [a];
  }

  /** Near the goal only the push of the one close robot counts. */
  lemma NearGoal(h: Hypot, rs: seq<Robot>, goal: Vec, i: nat, o: Robot, d: real, u: Vec, m: real)
    requires IsHypot(h)
    requires i < |rs| && PotentialField.Close(h, rs, rs[i]) == [o] && Dist(h, goal, rs[i].position) <= 5.0
    requires d == Dist(h, rs[i].position, o.position) > 0.0 && u == Away(h, rs[i], o) && m == 240.0 / (d * d)
    ensures PotentialField.Frame(h, rs, goal)[i].position == Add(rs[i].position, Scale(u, m))
  {
    hide *;
    PotentialField.FieldLaw(h, rs, goal, i);
    PushOfOne(h, o, rs[i].position, d, 300.0 / (d * d));
    AwayIs(h, rs[i], o, u);
    Damped(ZERO, u, 300.0 / (d * d), m, d * d);
  }

  lemma AwayIs(h: Hypot, a: Robot, b: Robot, u: Vec)
    requires u == Away(h, a, b)
    ensures u == Normalize(h, Sub(a.position, b.position))
  {
  }

  lemma PushOfOne(h: Hypot, o: Robot, p: Vec, d: real, s: real)
    requires d == Dist(h, p, o.position) > 0.0 && s == 300.0 / (d * d)
    ensures PotentialField.SumPushes(h, [o], p) == Scale(Normalize(h, Sub(p, o.position)), s)
  {
    assert [o][..0] == [];
    AddZero(PotentialField.SumPushes(h, [], p), Scale(Normalize(h, Sub(p, o.position)), s));
  }

  lemma Damped(z: Vec, u: Vec, s: real, m: real, e: real)
    requires z == ZERO && e != 0.0 && s == 300.0 / e && m == 240.0 / e
    ensures Scale(Add(z, Scale(u, s)), 0.8) == Scale(u, m)
  {
    var i := 1.0 / e;
    assert s == 300.0 * i && m == 240.0 * i;
    AddZero(z, Scale(u, s));
    Twice(u, s, 0.8, m);
  }

  lemma Twice(u: Vec, a: real, b: real, c: real)
    requires c == a * b
    ensures Scale(Scale(u, a), b) == Scale(u, c)
  {
  }

  lemma Negated(u: Vec, m: real)
    ensures Scale(Scale(u, -1.0), m) == Scale(u, -m)
  {
  }

  lemma Apart(p: Vec, q: Vec, u: Vec, d: real, m: real)
    requires Sub(p, q) == Scale(u, d)
    ensures Sub(Add(p, Scale(u, m)), Add(q, Scale(u, -m))) == Scale(u, d + 2.0 * m)
  {
  }
}
