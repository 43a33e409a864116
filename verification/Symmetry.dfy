/** Symmetries of both swarm steps: moving the whole picture moves the result, and the order in
    which robots are listed does not matter. */
module Symmetry {
  import opened Vectors
  import Boids
  import BoidsRuns
  import PotentialField
  import PotentialRuns
  import opened Sequences

  // ---------- Translation ----------

  function ShiftRobot(r: Robot, t: Vec): Robot {
    r.(position := Add(r.position, t))
  }

  function Shift(rs: seq<Robot>, t: Vec): seq<Robot> {
    seq(|rs|, i requires 0 <= i < |rs| => ShiftRobot(rs[i], t))
  }

  function ShiftAll(goals: seq<Vec>, t: Vec): seq<Vec> {
    seq(|goals|, i requires 0 <= i < |goals| => Add(goals[i], t))
  }

  lemma SubShift(a: Vec, b: Vec, t: Vec)
    ensures Sub(Add(a, t), Add(b, t)) == Sub(a, b)
  {
  }

  /** What a shifted observer gathers: the same, except that the sum of absolute positions has
      moved once for every robot counted. */
  function ShiftNeighbours(n: Boids.Neighbours, t: Vec): Boids.Neighbours {
    n.(coh := Add(n.coh, Scale(t, n.countCoh as real)))
  }

  lemma ShiftPlus(a: Boids.Neighbours, b: Boids.Neighbours, t: Vec)
    ensures Boids.Plus(ShiftNeighbours(a, t), ShiftNeighbours(b, t)) == ShiftNeighbours(Boids.Plus(a, b), t)
  {
    var m, n := a.countCoh as real, b.countCoh as real;
    assert (a.countCoh + b.countCoh) as real == m + n;
    assert t.x * (m + n) == t.x * m + t.x * n;
    assert t.y * (m + n) == t.y * m + t.y * n;
  }

  lemma ShiftNobody(n: Boids.Neighbours, t: Vec)
    requires n.countCoh == 0
    ensures ShiftNeighbours(n, t) == n
  {
  }

  lemma ShiftContribution(h: Hypot, r: Robot, o: Robot, t: Vec)
    ensures Boids.Contribution(h, ShiftRobot(r, t), ShiftRobot(o, t))
         == ShiftNeighbours(Boids.Contribution(h, r, o), t)
  {
    var n := Boids.Contribution(h, r, o);
    SubShift(o.position, r.position, t);
    if n.countCoh == 0 {
      ShiftNobody(n, t);
    }
  }

  lemma {:induction false} ShiftGather(h: Hypot, rs: seq<Robot>, r: Robot, t: Vec)
    ensures Boids.Gather(h, Shift(rs, t), ShiftRobot(r, t)) == ShiftNeighbours(Boids.Gather(h, rs, r), t)
  {
    if rs == [] {
      ShiftNobody(Boids.NOBODY, t);
    } else {
      var front, last := rs[..|rs| - 1], rs[|rs| - 1];
      assert Shift(rs, t)[..|rs| - 1] == Shift(front, t);
      ShiftGather(h, front, r, t);
      ShiftContribution(h, r, last, t);
      ShiftPlus(Boids.Gather(h, front, r), Boids.Contribution(h, r, last), t);
    }
  }

  lemma MeanShift(s: real, t: real, p: real, n: real)
    requires n > 0.0
    ensures (s + t * n) / n - (p + t) == s / n - p
  {
    assert (s + t * n) / n == s / n + t;
  }

  lemma ShiftCohesion(h: Hypot, r: Robot, n: Boids.Neighbours, t: Vec)
    requires n.countCoh == 0 ==> n.coh == ZERO
    ensures Boids.CohForce(h, ShiftRobot(r, t), ShiftNeighbours(n, t)) == Boids.CohForce(h, r, n)
  {
    if n.countCoh > 0 {
      var c := n.countCoh as real;
      MeanShift(n.coh.x, t.x, r.position.x, c);
      MeanShift(n.coh.y, t.y, r.position.y, c);
      var to := Vec(n.coh.x / c - r.position.x, n.coh.y / c - r.position.y);
      SteerShift(h, r, t, to);
      CohesionSteers(h, r, n, to);
      CohesionSteers(h, ShiftRobot(r, t), ShiftNeighbours(n, t), to);
    } else {
      ShiftNobody(n, t);
    }
  }

  lemma CohesionSteers(h: Hypot, r: Robot, n: Boids.Neighbours, to: Vec)
    requires n.countCoh > 0
    requires to == Vec(n.coh.x / n.countCoh as real - r.position.x, n.coh.y / n.countCoh as real - r.position.y)
    ensures Boids.CohForce(h, r, n) == Boids.Steer(h, r, to)
  {
  }

  lemma SteerShift(h: Hypot, r: Robot, t: Vec, to: Vec)
    ensures Boids.Steer(h, ShiftRobot(r, t), to) == Boids.Steer(h, r, to)
  {
  }

  lemma ShiftOtherForces(h: Hypot, r: Robot, n: Boids.Neighbours, goal: Vec, t: Vec)
    ensures Boids.SepForce(h, ShiftRobot(r, t), ShiftNeighbours(n, t)) == Boids.SepForce(h, r, n)
    ensures Boids.AlignForce(h, ShiftRobot(r, t), ShiftNeighbours(n, t)) == Boids.AlignForce(h, r, n)
    ensures Boids.SeekForce(h, ShiftRobot(r, t), Add(goal, t)) == Boids.SeekForce(h, r, goal)
  {
    SteerShift(h, r, t, n.sep);
    SubShift(goal, r.position, t);
    SteerShift(h, r, t, Sub(goal, r.position));
    if n.countAlign > 0 {
      SteerShift(h, r, t, Vec(n.align.x / n.countAlign as real, n.align.y / n.countAlign as real));
    }
  }

  lemma ShiftBoidsMove(h: Hypot, r: Robot, n: Boids.Neighbours, goal: Vec, t: Vec)
    requires n.countCoh == 0 ==> n.coh == ZERO
    ensures Boids.Move(h, ShiftRobot(r, t), ShiftNeighbours(n, t), Add(goal, t))
         == ShiftRobot(Boids.Move(h, r, n, goal), t)
  {
    ShiftCohesion(h, r, n, t);
    ShiftOtherForces(h, r, n, goal, t);
    var v := Boids.NextVelocity(h, r, n, goal);
    assert Boids.NextVelocity(h, ShiftRobot(r, t), ShiftNeighbours(n, t), Add(goal, t)) == v;
    AddCommutes(r.position, t, v);
  }

  /** The steering of a robot sees relative positions only, although cohesion sums absolute
      ones before it subtracts. */
  lemma ShiftBoidsRobot(h: Hypot, rs: seq<Robot>, r: Robot, goal: Vec, t: Vec)
    ensures Boids.BoidsRobot(h, Shift(rs, t), ShiftRobot(r, t), Add(goal, t))
         == ShiftRobot(Boids.BoidsRobot(h, rs, r, goal), t)
  {
    Boids.CountsCoverSums(h, rs, r);
    ShiftGather(h, rs, r, t);
    ShiftBoidsMove(h, r, Boids.Gather(h, rs, r), goal, t);
  }

  lemma ShiftBoidsFrame(h: Hypot, rs: seq<Robot>, goal: Vec, t: Vec)
    ensures Boids.Frame(h, Shift(rs, t), Add(goal, t)) == Shift(Boids.Frame(h, rs, goal), t)
  {
    forall i | 0 <= i < |rs|
      ensures Boids.Frame(h, Shift(rs, t), Add(goal, t))[i] == Shift(Boids.Frame(h, rs, goal), t)[i]
    {
      ShiftBoidsRobot(h, rs, rs[i], goal, t);
    }
  }

  /** A whole flocking run, with a goal per frame, commutes with translation. */
  lemma {:induction false} ShiftBoidsRun(h: Hypot, rs: seq<Robot>, goals: seq<Vec>, t: Vec)
    ensures BoidsRuns.Run(h, Shift(rs, t), ShiftAll(goals, t)) == Shift(BoidsRuns.Run(h, rs, goals), t)
    decreases |goals|
  {
    if goals != [] {
      ShiftBoidsFrame(h, rs, goals[0], t);
      ShiftBoidsRun(h, Boids.Frame(h, rs, goals[0]), goals[1..], t);
      assert ShiftAll(goals, t)[1..] == ShiftAll(goals[1..], t);
    }
  }

  lemma {:induction false} ShiftRepulsion(h: Hypot, rs: seq<Robot>, r: Robot, t: Vec)
    ensures PotentialField.Repulsion(h, Shift(rs, t), ShiftRobot(r, t)) == PotentialField.Repulsion(h, rs, r)
  {
    if rs != [] {
      var front, last := rs[..|rs| - 1], rs[|rs| - 1];
      assert Shift(rs, t)[..|rs| - 1] == Shift(front, t);
      ShiftRepulsion(h, front, r, t);
      SubShift(r.position, last.position, t);
      assert PotentialField.Pair(h, ShiftRobot(r, t), ShiftRobot(last, t)) == PotentialField.Pair(h, r, last);
    }
  }

  lemma ShiftPotentialFrame(h: Hypot, rs: seq<Robot>, goal: Vec, t: Vec)
    ensures PotentialField.Frame(h, Shift(rs, t), Add(goal, t)) == Shift(PotentialField.Frame(h, rs, goal), t)
  {
    forall i | 0 <= i < |rs|
      ensures PotentialField.Frame(h, Shift(rs, t), Add(goal, t))[i]
           == Shift(PotentialField.Frame(h, rs, goal), t)[i]
    {
      var r := rs[i];
      ShiftRepulsion(h, rs, r, t);
      SubShift(goal, r.position, t);
      ShiftMove(r, PotentialField.Attraction(h, r.position, goal), PotentialField.Repulsion(h, rs, r), t);
    }
  }

  /** A whole potential-field run commutes with translation. */
  lemma {:induction false} ShiftPotentialRun(h: Hypot, rs: seq<Robot>, goal: Vec, t: Vec, k: nat)
    ensures PotentialRuns.Run(h, Shift(rs, t), Add(goal, t), k) == Shift(PotentialRuns.Run(h, rs, goal, k), t)
    decreases k
  {
    if k > 0 {
      ShiftPotentialFrame(h, rs, goal, t);
      ShiftPotentialRun(h, PotentialField.Frame(h, rs, goal), goal, t, k - 1);
    }
  }

  lemma ShiftMove(r: Robot, fAtt: Vec, fRep: Vec, t: Vec)
    ensures PotentialField.Move(ShiftRobot(r, t), fAtt, fRep) == ShiftRobot(PotentialField.Move(r, fAtt, fRep), t)
  {
  }

  // ---------- Permutation ----------

  lemma PlusCommutes(a: Boids.Neighbours, b: Boids.Neighbours, c: Boids.Neighbours)
    ensures Boids.Plus(Boids.Plus(a, b), c) == Boids.Plus(Boids.Plus(a, c), b)
  {
  }

  lemma GatherRemove(h: Hypot, rs: seq<Robot>, i: nat, r: Robot)
    requires i < |rs|
    ensures Boids.Gather(h, rs, r)
         == Boids.Plus(Boids.Gather(h, Remove(rs, i), r), Boids.Contribution(h, r, rs[i]))
  {
    var a, b := rs[..i], rs[i + 1..];
    assert rs == rs[..i + 1] + b;
    Boids.GatherStep(h, rs, r, i);
    BoidsRuns.GatherConcat(h, rs[..i + 1], b, r);
    BoidsRuns.GatherConcat(h, a, b, r);
    PlusCommutes(Boids.Gather(h, a, r), Boids.Contribution(h, r, rs[i]), Boids.Gather(h, b, r));
  }

  lemma {:induction false} GatherPermuted(h: Hypot, A: seq<Robot>, B: seq<Robot>, r: Robot)
    requires multiset(A) == multiset(B)
    ensures Boids.Gather(h, A, r) == Boids.Gather(h, B, r)
    decreases |A|
  {
    if A == [] {
      assert |multiset(B)| == 0;
    } else {
      var a := A[|A| - 1];
      assert a in multiset(B);
      var i: nat :| i < |B| && B[i] == a;
      assert Remove(A, |A| - 1) == A[..|A| - 1];
      RemoveMultiset(A, |A| - 1);
      RemoveMultiset(B, i);
      GatherPermuted(h, A[..|A| - 1], Remove(B, i), r);
      GatherRemove(h, B, i, r);
    }
  }

  lemma {:induction false} RepulsionRemove(h: Hypot, rs: seq<Robot>, i: nat, r: Robot)
    requires i < |rs|
    ensures PotentialField.Repulsion(h, rs, r)
         == Add(PotentialField.Repulsion(h, Remove(rs, i), r), PotentialField.Pair(h, r, rs[i]))
    decreases |rs|
  {
    var n := |rs| - 1;
    RemoveLast(rs, i);
    UnfoldRepulsion(h, rs, r);
    if i < n {
      var front := rs[..n];
      RepulsionRemove(h, front, i, r);
      UnfoldRepulsion(h, Remove(rs, i), r);
      SwapLast(PotentialField.Repulsion(h, rs, r), PotentialField.Repulsion(h, front, r),
               PotentialField.Repulsion(h, Remove(rs, i), r), PotentialField.Repulsion(h, Remove(front, i), r),
               PotentialField.Pair(h, r, rs[i]), PotentialField.Pair(h, r, rs[n]));
    }
  }

  lemma UnfoldRepulsion(h: Hypot, rs: seq<Robot>, r: Robot)
    requires rs != []
    ensures PotentialField.Repulsion(h, rs, r)
         == Add(PotentialField.Repulsion(h, rs[..|rs| - 1], r), PotentialField.Pair(h, r, rs[|rs| - 1]))
  {
  }

  lemma SwapLast(all: Vec, front: Vec, rest: Vec, inner: Vec, x: Vec, y: Vec)
    requires all == Add(front, y) && front == Add(inner, x) && rest == Add(inner, y)
    ensures all == Add(rest, x)
  {
    AddCommutes(inner, x, y);
  }

  lemma AddCommutes(a: Vec, b: Vec, c: Vec)
    ensures Add(Add(a, b), c) == Add(Add(a, c), b)
  {
  }

  lemma {:induction false} RepulsionPermuted(h: Hypot, A: seq<Robot>, B: seq<Robot>, r: Robot)
    requires multiset(A) == multiset(B)
    ensures PotentialField.Repulsion(h, A, r) == PotentialField.Repulsion(h, B, r)
    decreases |A|
  {
    if A == [] {
      assert |multiset(B)| == 0;
    } else {
      var a := A[|A| - 1];
      assert a in multiset(B);
      var i: nat :| i < |B| && B[i] == a;
      assert Remove(A, |A| - 1) == A[..|A| - 1];
      RemoveMultiset(A, |A| - 1);
      RemoveMultiset(B, i);
      RepulsionPermuted(h, A[..|A| - 1], Remove(B, i), r);
      RepulsionRemove(h, B, i, r);
    }
  }

  /** Two lists related entry by entry keep equal multisets under such a relation. */
  ghost predicate Matched(A: seq<Robot>, A': seq<Robot>, B: seq<Robot>, B': seq<Robot>) {
    && |A| == |A'| && |B| == |B'|
    && (forall i, j :: 0 <= i < |A| && 0 <= j < |B| && A[i] == B[j] ==> A'[i] == B'[j])
  }

  lemma MatchedRemove(A: seq<Robot>, A': seq<Robot>, a: nat, B: seq<Robot>, B': seq<Robot>, b: nat)
    requires Matched(A, A', B, B') && a < |A| && b < |B|
    ensures Matched(Remove(A, a), Remove(A', a), Remove(B, b), Remove(B', b))
  {
    forall i, j | 0 <= i < |A| - 1 && 0 <= j < |B| - 1 && Remove(A, a)[i] == Remove(B, b)[j]
      ensures Remove(A', a)[i] == Remove(B', b)[j]
    {
      var k, l := if i < a then i else i + 1, if j < b then j else j + 1;
      assert A[k] == B[l];
    }
  }

  lemma {:induction false} MatchedMultisets(A: seq<Robot>, A': seq<Robot>, B: seq<Robot>, B': seq<Robot>)
    requires multiset(A) == multiset(B)
    requires Matched(A, A', B, B')
    ensures multiset(A') == multiset(B')
    decreases |A|
  {
    if A == [] {
      assert |multiset(B)| == 0;
    } else {
      var n := |A| - 1;
      assert A[n] in multiset(B);
      var i: nat :| i < |B| && B[i] == A[n];
      RemoveMultiset(A, n);
      RemoveMultiset(B, i);
      RemoveMultiset(A', n);
      RemoveMultiset(B', i);
      MatchedRemove(A, A', n, B, B', i);
      MatchedMultisets(Remove(A, n), Remove(A', n), Remove(B, i), Remove(B', i));
      assert A'[n] == B'[i];
    }
  }

  /** Listing the same robots in another order gives every robot the same next state. */
  lemma PermutedBoidsFrame(h: Hypot, A: seq<Robot>, B: seq<Robot>, goal: Vec)
    requires multiset(A) == multiset(B)
    ensures Matched(A, Boids.Frame(h, A, goal), B, Boids.Frame(h, B, goal))
    ensures multiset(Boids.Frame(h, A, goal)) == multiset(Boids.Frame(h, B, goal))
  {
    forall i, j | 0 <= i < |A| && 0 <= j < |B| && A[i] == B[j]
      ensures Boids.Frame(h, A, goal)[i] == Boids.Frame(h, B, goal)[j]
    {
      GatherPermuted(h, A, B, A[i]);
    }
    MatchedMultisets(A, Boids.Frame(h, A, goal), B, Boids.Frame(h, B, goal));
  }

  lemma PermutedPotentialFrame(h: Hypot, A: seq<Robot>, B: seq<Robot>, goal: Vec)
    requires multiset(A) == multiset(B)
    ensures Matched(A, PotentialField.Frame(h, A, goal), B, PotentialField.Frame(h, B, goal))
    ensures multiset(PotentialField.Frame(h, A, goal)) == multiset(PotentialField.Frame(h, B, goal))
  {
    forall i, j | 0 <= i < |A| && 0 <= j < |B| && A[i] == B[j]
      ensures PotentialField.Frame(h, A, goal)[i] == PotentialField.Frame(h, B, goal)[j]
    {
      RepulsionPermuted(h, A, B, A[i]);
    }
    MatchedMultisets(A, PotentialField.Frame(h, A, goal), B, PotentialField.Frame(h, B, goal));
  }

  /** The order stays irrelevant through any number of frames and changes of goal. */
  lemma {:induction false} PermutedBoidsRun(h: Hypot, A: seq<Robot>, B: seq<Robot>, goals: seq<Vec>)
    requires multiset(A) == multiset(B)
    ensures multiset(BoidsRuns.Run(h, A, goals)) == multiset(BoidsRuns.Run(h, B, goals))
    decreases |goals|
  {
    if goals != [] {
      PermutedBoidsFrame(h, A, B, goals[0]);
      PermutedBoidsRun(h, Boids.Frame(h, A, goals[0]), Boids.Frame(h, B, goals[0]), goals[1..]);
    }
  }

  lemma {:induction false} PermutedPotentialRun(h: Hypot, A: seq<Robot>, B: seq<Robot>, goal: Vec, k: nat)
    requires multiset(A) == multiset(B)
    ensures multiset(PotentialRuns.Run(h, A, goal, k)) == multiset(PotentialRuns.Run(h, B, goal, k))
    decreases k
  {
    if k > 0 {
      PermutedPotentialFrame(h, A, B, goal);
      PermutedPotentialRun(h, PotentialField.Frame(h, A, goal), PotentialField.Frame(h, B, goal), goal, k - 1);
    }
  }
}
