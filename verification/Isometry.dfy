/** Both swarm steps are isotropic: turning or mirroring the whole picture (positions, velocities
    and goal) turns or mirrors the next state.  No component of any force is singled out. */
module Isometry {
  import opened Vectors
  import Boids
  import BoidsRuns
  import PotentialField
  import PotentialRuns

  /** The linear map with rows (a, b) and (p, q). */
  datatype Matrix = Matrix(a: real, b: real, p: real, q: real)

  /** Rotations and reflections: orthonormal columns. */
  predicate Orthogonal(m: Matrix) {
    m.a * m.a + m.p * m.p == 1.0 && m.b * m.b + m.q * m.q == 1.0 && m.a * m.b + m.p * m.q == 0.0
  }

  function Turn(m: Matrix, v: Vec): Vec {
    Vec(m.a * v.x + m.b * v.y, m.p * v.x + m.q * v.y)
  }

  function TurnRobot(m: Matrix, r: Robot): Robot {
    Robot(r.id, Turn(m, r.position), Turn(m, r.velocity))
  }

  function TurnAll(m: Matrix, rs: seq<Robot>): seq<Robot> {
    seq(|rs|, i requires 0 <= i < |rs| => TurnRobot(m, rs[i]))
  }

  function TurnGoals(m: Matrix, goals: seq<Vec>): seq<Vec> {
    seq(|goals|, i requires 0 <= i < |goals| => Turn(m, goals[i]))
  }

  // ---------- Vector operations ----------

  lemma Linear(m: Matrix, u: Vec, v: Vec)
    ensures Turn(m, Add(u, v)) == Add(Turn(m, u), Turn(m, v))
    ensures Turn(m, Sub(u, v)) == Sub(Turn(m, u), Turn(m, v))
  {
    TurnAdd(m, u, v);
    TurnSub(m, u, v);
  }

  lemma TurnAdd(m: Matrix, u: Vec, v: Vec)
    ensures Turn(m, Add(u, v)) == Add(Turn(m, u), Turn(m, v))
  {
  }

  lemma TurnSub(m: Matrix, u: Vec, v: Vec)
    ensures Turn(m, Sub(u, v)) == Sub(Turn(m, u), Turn(m, v))
  {
  }

  lemma TurnScale(m: Matrix, v: Vec, s: real)
    ensures Turn(m, Scale(v, s)) == Scale(Turn(m, v), s)
  {
    RowScale(m.a, m.b, v.x, v.y, s);
    RowScale(m.p, m.q, v.x, v.y, s);
  }

  lemma RowScale(a: real, b: real, x: real, y: real, s: real)
    ensures a * (x * s) + b * (y * s) == (a * x + b * y) * s
  {
    assert a * (x * s) == (a * x) * s && b * (y * s) == (b * y) * s;
  }

  lemma TurnDivide(m: Matrix, v: Vec, n: real)
    requires n != 0.0
    ensures Turn(m, Vec(v.x / n, v.y / n)) == Vec(Turn(m, v).x / n, Turn(m, v).y / n)
  {
    RowDivide(m.a, m.b, v.x, v.y, n);
    RowDivide(m.p, m.q, v.x, v.y, n);
  }

  lemma RowDivide(a: real, b: real, x: real, y: real, n: real)
    requires n != 0.0
    ensures a * (x / n) + b * (y / n) == (a * x + b * y) / n
  {
    var u, w := x / n, y / n;
    RowScale(a, b, u, w, n);
    assert u * n == x && w * n == y;
    QuotientOf(a * u + b * w, n, a * x + b * y);
  }

  lemma QuotientOf(z: real, n: real, t: real)
    requires n != 0.0 && z * n == t
    ensures z == t / n
  {
  }

  lemma TurnZero(m: Matrix, z: Vec)
    requires z == ZERO
    ensures Turn(m, z) == ZERO
  {
  }

  lemma TurnNorm(h: Hypot, m: Matrix, v: Vec)
    requires IsHypot(h) && Orthogonal(m)
    ensures Norm(h, Turn(m, v)) == Norm(h, v)
  {
    NormSquared(h, v);
    TurnDot(m, v.x, v.y);
    NormUnique(h, Turn(m, v), Norm(h, v));
  }

  lemma TurnDot(m: Matrix, x: real, y: real)
    requires Orthogonal(m)
    ensures (m.a * x + m.b * y) * (m.a * x + m.b * y) + (m.p * x + m.q * y) * (m.p * x + m.q * y)
         == x * x + y * y
  {
    ExpandSquare(m.a, m.b, x, y);
    ExpandSquare(m.p, m.q, x, y);
    var xx, yy, xy := x * x, y * y, x * y;
    assert (m.a * m.a) * xx + (m.p * m.p) * xx == (m.a * m.a + m.p * m.p) * xx;
    assert (m.b * m.b) * yy + (m.q * m.q) * yy == (m.b * m.b + m.q * m.q) * yy;
    assert (m.a * m.b) * xy + (m.p * m.q) * xy == (m.a * m.b + m.p * m.q) * xy;
  }

  lemma ExpandSquare(a: real, b: real, x: real, y: real)
    ensures (a * x + b * y) * (a * x + b * y)
         == (a * a) * (x * x) + 2.0 * ((a * b) * (x * y)) + (b * b) * (y * y)
  {
  }

  lemma TurnNormalize(h: Hypot, m: Matrix, v: Vec)
    requires IsHypot(h) && Orthogonal(m)
    ensures Turn(m, Normalize(h, v)) == Normalize(h, Turn(m, v))
  {
    TurnNorm(h, m, v);
    TurnDivide(m, v, if Norm(h, v) == 0.0 then 1.0 else Norm(h, v));
  }

  lemma TurnLimit(h: Hypot, m: Matrix, v: Vec, max: real)
    requires IsHypot(h) && Orthogonal(m) && 0.0 <= max
    ensures Turn(m, Limit(h, v, max)) == Limit(h, Turn(m, v), max)
  {
    TurnNorm(h, m, v);
    if Norm(h, v) > max {
      TurnScale(m, v, max / Norm(h, v));
    }
  }

  // ---------- Flocking ----------

  function TurnNeighbours(m: Matrix, n: Boids.Neighbours): Boids.Neighbours {
    n.(sep := Turn(m, n.sep), align := Turn(m, n.align), coh := Turn(m, n.coh))
  }

  lemma TurnSeen(h: Hypot, m: Matrix, p: Vec, o: Robot)
    requires IsHypot(h) && Orthogonal(m)
    ensures Boids.Seen(h, Turn(m, p), TurnRobot(m, o)) == TurnNeighbours(m, Boids.Seen(h, p, o))
  {
    var offset := Sub(o.position, p);
    var d := Norm(h, offset);
    Linear(m, o.position, p);
    TurnNorm(h, m, offset);
    TurnZero(m, ZERO);
    if 0.0 < d < Boids.SEP_RADIUS {
      TurnDivide(m, offset, d);
      TurnNegated(m, Vec(offset.x / d, offset.y / d));
    }
  }

  lemma TurnNegated(m: Matrix, v: Vec)
    ensures Turn(m, Vec(-v.x, -v.y)) == Vec(-Turn(m, v).x, -Turn(m, v).y)
  {
    RowScale(m.a, m.b, v.x, v.y, -1.0);
    RowScale(m.p, m.q, v.x, v.y, -1.0);
  }

  lemma TurnNobody(m: Matrix, n: Boids.Neighbours)
    requires n == Boids.NOBODY
    ensures TurnNeighbours(m, n) == n
  {
    TurnZero(m, n.sep);
  }

  lemma TurnPlus(m: Matrix, n: Boids.Neighbours, k: Boids.Neighbours)
    ensures TurnNeighbours(m, Boids.Plus(n, k)) == Boids.Plus(TurnNeighbours(m, n), TurnNeighbours(m, k))
  {
    Linear(m, n.sep, k.sep);
    Linear(m, n.align, k.align);
    Linear(m, n.coh, k.coh);
  }

  lemma {:induction false} TurnGather(h: Hypot, m: Matrix, rs: seq<Robot>, r: Robot)
    requires IsHypot(h) && Orthogonal(m)
    ensures Boids.Gather(h, TurnAll(m, rs), TurnRobot(m, r)) == TurnNeighbours(m, Boids.Gather(h, rs, r))
  {
    if rs == [] {
      TurnNobody(m, Boids.NOBODY);
    } else {
      var front, last := rs[..|rs| - 1], rs[|rs| - 1];
      assert TurnAll(m, rs)[..|rs| - 1] == TurnAll(m, front);
      TurnGather(h, m, front, r);
      TurnContribution(h, m, r, last);
      TurnPlus(m, Boids.Gather(h, front, r), Boids.Contribution(h, r, last));
    }
  }

  lemma TurnContribution(h: Hypot, m: Matrix, r: Robot, o: Robot)
    requires IsHypot(h) && Orthogonal(m)
    ensures Boids.Contribution(h, TurnRobot(m, r), TurnRobot(m, o))
         == TurnNeighbours(m, Boids.Contribution(h, r, o))
  {
    if o.id == r.id {
      TurnNobody(m, Boids.Contribution(h, r, o));
    } else {
      TurnSeen(h, m, r.position, o);
    }
  }

  lemma TurnSteer(h: Hypot, m: Matrix, r: Robot, to: Vec)
    requires IsHypot(h) && Orthogonal(m)
    ensures Turn(m, Boids.Steer(h, r, to)) == Boids.Steer(h, TurnRobot(m, r), Turn(m, to))
  {
    var u := Normalize(h, to);
    var w := Scale(u, 4.0);
    TurnNormalize(h, m, to);
    TurnScale(m, u, 4.0);
    Linear(m, w, r.velocity);
    TurnLimit(h, m, Sub(w, r.velocity), 0.1);
  }

  lemma TurnSeek(h: Hypot, m: Matrix, r: Robot, goal: Vec)
    requires IsHypot(h) && Orthogonal(m)
    ensures Turn(m, Boids.SeekForce(h, r, goal)) == Boids.SeekForce(h, TurnRobot(m, r), Turn(m, goal))
  {
    var to := Sub(goal, r.position);
    Linear(m, goal, r.position);
    TurnNorm(h, m, to);
    if Norm(h, to) > 0.0 {
      TurnSteer(h, m, r, to);
    } else {
      TurnZero(m, Boids.SeekForce(h, r, goal));
    }
  }

  lemma TurnAlign(h: Hypot, m: Matrix, r: Robot, n: Boids.Neighbours)
    requires IsHypot(h) && Orthogonal(m)
    ensures Turn(m, Boids.AlignForce(h, r, n)) == Boids.AlignForce(h, TurnRobot(m, r), TurnNeighbours(m, n))
  {
    if n.countAlign > 0 {
      var c := n.countAlign as real;
      TurnDivide(m, n.align, c);
      TurnSteer(h, m, r, Vec(n.align.x / c, n.align.y / c));
    }
  }

  lemma TurnCoh(h: Hypot, m: Matrix, r: Robot, n: Boids.Neighbours)
    requires IsHypot(h) && Orthogonal(m)
    ensures Turn(m, Boids.CohForce(h, r, n)) == Boids.CohForce(h, TurnRobot(m, r), TurnNeighbours(m, n))
  {
    if n.countCoh > 0 {
      var c := n.countCoh as real;
      var mean := Vec(n.coh.x / c, n.coh.y / c);
      TurnDivide(m, n.coh, c);
      Linear(m, mean, r.position);
      TurnSteer(h, m, r, Sub(mean, r.position));
    }
  }

  lemma TurnCombine(m: Matrix, a: Vec, b: Vec, c: Vec, d: Vec)
    ensures Turn(m, Boids.Combine(a, b, c, d))
         == Boids.Combine(Turn(m, a), Turn(m, b), Turn(m, c), Turn(m, d))
  {
    var sep, seek := Scale(a, 1.5), Scale(d, 1.2);
    Boids.CombineIsSum(a, b, c, d);
    Boids.CombineIsSum(Turn(m, a), Turn(m, b), Turn(m, c), Turn(m, d));
    TurnScale(m, a, 1.5);
    TurnScale(m, d, 1.2);
    Linear(m, sep, b);
    Linear(m, c, seek);
    Linear(m, Add(sep, b), Add(c, seek));
  }

  lemma TurnMove(h: Hypot, m: Matrix, r: Robot, n: Boids.Neighbours, goal: Vec)
    requires IsHypot(h) && Orthogonal(m)
    ensures Boids.Move(h, TurnRobot(m, r), TurnNeighbours(m, n), Turn(m, goal))
         == TurnRobot(m, Boids.Move(h, r, n, goal))
  {
    var a, b, c, d := Boids.SepForce(h, r, n), Boids.AlignForce(h, r, n), Boids.CohForce(h, r, n),
                      Boids.SeekForce(h, r, goal);
    TurnSteer(h, m, r, n.sep);
    TurnAlign(h, m, r, n);
    TurnCoh(h, m, r, n);
    TurnSeek(h, m, r, goal);
    TurnCombine(m, a, b, c, d);
    var acc := Boids.Combine(a, b, c, d);
    assert Boids.Acceleration(h, TurnRobot(m, r), TurnNeighbours(m, n), Turn(m, goal)) == Turn(m, acc);
    Linear(m, r.velocity, acc);
    TurnLimit(h, m, Add(r.velocity, acc), 4.0);
    Linear(m, r.position, Boids.NextVelocity(h, r, n, goal));
  }

  lemma TurnBoidsFrame(h: Hypot, m: Matrix, rs: seq<Robot>, goal: Vec)
    requires IsHypot(h) && Orthogonal(m)
    ensures Boids.Frame(h, TurnAll(m, rs), Turn(m, goal)) == TurnAll(m, Boids.Frame(h, rs, goal))
  {
    forall i | 0 <= i < |rs|
      ensures Boids.Frame(h, TurnAll(m, rs), Turn(m, goal))[i] == TurnAll(m, Boids.Frame(h, rs, goal))[i]
    {
      TurnGather(h, m, rs, rs[i]);
      TurnMove(h, m, rs[i], Boids.Gather(h, rs, rs[i]), goal);
    }
  }

  lemma {:induction false} TurnBoidsRun(h: Hypot, m: Matrix, rs: seq<Robot>, goals: seq<Vec>)
    requires IsHypot(h) && Orthogonal(m)
    ensures BoidsRuns.Run(h, TurnAll(m, rs), TurnGoals(m, goals)) == TurnAll(m, BoidsRuns.Run(h, rs, goals))
    decreases |goals|
  {
    if goals != [] {
      TurnBoidsFrame(h, m, rs, goals[0]);
      TurnBoidsRun(h, m, Boids.Frame(h, rs, goals[0]), goals[1..]);
      assert TurnGoals(m, goals)[1..] == TurnGoals(m, goals[1..]);
    }
  }

  // ---------- The potential field ----------

  lemma TurnPair(h: Hypot, m: Matrix, r: Robot, o: Robot)
    requires IsHypot(h) && Orthogonal(m)
    ensures Turn(m, PotentialField.Pair(h, r, o)) == PotentialField.Pair(h, TurnRobot(m, r), TurnRobot(m, o))
  {
    var p, q := r.position, o.position;
    Linear(m, p, q);
    TurnNorm(h, m, Sub(p, q));
    var d := Dist(h, p, q);
    if o.id == r.id {
      TurnZero(m, PotentialField.Pair(h, r, o));
    } else if 0.0 < d < PotentialField.SEP_DIST {
      var s := PotentialField.Strength(d);
      assert PotentialField.Pair(h, r, o) == Scale(Sub(p, q), s);
      TurnScale(m, Sub(p, q), s);
    } else {
      PotentialField.NoPush(h, p, q);
      PotentialField.NoPush(h, Turn(m, p), Turn(m, q));
      TurnZero(m, PotentialField.Pair(h, r, o));
    }
  }

  lemma {:induction false} TurnRepulsion(h: Hypot, m: Matrix, rs: seq<Robot>, r: Robot)
    requires IsHypot(h) && Orthogonal(m)
    ensures Turn(m, PotentialField.Repulsion(h, rs, r))
         == PotentialField.Repulsion(h, TurnAll(m, rs), TurnRobot(m, r))
  {
    if rs == [] {
      TurnZero(m, PotentialField.Repulsion(h, rs, r));
    } else {
      var front, last := rs[..|rs| - 1], rs[|rs| - 1];
      assert TurnAll(m, rs)[..|rs| - 1] == TurnAll(m, front);
      TurnRepulsion(h, m, front, r);
      TurnPair(h, m, r, last);
      Linear(m, PotentialField.Repulsion(h, front, r), PotentialField.Pair(h, r, last));
    }
  }

  lemma TurnAttraction(h: Hypot, m: Matrix, p: Vec, goal: Vec)
    requires IsHypot(h) && Orthogonal(m)
    ensures Turn(m, PotentialField.Attraction(h, p, goal)) == PotentialField.Attraction(h, Turn(m, p), Turn(m, goal))
  {
    var d := Dist(h, goal, p);
    Linear(m, goal, p);
    TurnNorm(h, m, Sub(goal, p));
    if d > PotentialField.STOPPING_DIST {
      TurnScale(m, Sub(goal, p), Min(d * 0.1, 5.0) / d);
    } else {
      TurnZero(m, PotentialField.Attraction(h, p, goal));
    }
  }

  lemma TurnPotentialFrame(h: Hypot, m: Matrix, rs: seq<Robot>, goal: Vec)
    requires IsHypot(h) && Orthogonal(m)
    ensures PotentialField.Frame(h, TurnAll(m, rs), Turn(m, goal)) == TurnAll(m, PotentialField.Frame(h, rs, goal))
  {
    forall i | 0 <= i < |rs|
      ensures PotentialField.Frame(h, TurnAll(m, rs), Turn(m, goal))[i]
           == TurnAll(m, PotentialField.Frame(h, rs, goal))[i]
    {
      var r := rs[i];
      TurnRepulsion(h, m, rs, r);
      TurnAttraction(h, m, r.position, goal);
      TurnForces(m, r, PotentialField.Attraction(h, r.position, goal), PotentialField.Repulsion(h, rs, r));
    }
  }

  lemma TurnForces(m: Matrix, r: Robot, fAtt: Vec, fRep: Vec)
    ensures PotentialField.Move(TurnRobot(m, r), Turn(m, fAtt), Turn(m, fRep))
         == TurnRobot(m, PotentialField.Move(r, fAtt, fRep))
  {
    Linear(m, fAtt, fRep);
    TurnScale(m, Add(fAtt, fRep), 0.8);
    Linear(m, r.position, Scale(Add(fAtt, fRep), 0.8));
  }

  lemma {:induction false} TurnPotentialRun(h: Hypot, m: Matrix, rs: seq<Robot>, goal: Vec, k: nat)
    requires IsHypot(h) && Orthogonal(m)
    ensures PotentialRuns.Run(h, TurnAll(m, rs), Turn(m, goal), k) == TurnAll(m, PotentialRuns.Run(h, rs, goal, k))
    decreases k
  {
    if k > 0 {
      TurnPotentialFrame(h, m, rs, goal);
      TurnPotentialRun(h, m, PotentialField.Frame(h, rs, goal), goal, k - 1);
    }
  }
}
