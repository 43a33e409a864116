/** One frame of the potential field, `moveToPotentialField` in `swarmbase-ui/app/page.tsx`:
    attraction to the goal, repulsion between close robots, damping.  The repulsions of a
    frame cancel over the swarm, so the centroid feels the attractions only. */
module PotentialField {
  import opened Vectors

  // The multiplicative parameters are written where they act: attGain 0.1, repGain 300,
  // maxSpeed 5, damping 0.8.

  const SEP_DIST: real := 20.0
  const STOPPING_DIST: real := 5.0

  function Attraction(h: Hypot, p: Vec, goal: Vec): Vec {
    var d := Dist(h, goal, p);
    if d > STOPPING_DIST then Scale(Sub(goal, p), Min(d * 0.1, 5.0) / d) else ZERO
  }

  /** Length 300 / d^2 for a vector of length d. */
  function Strength(d: real): real
    requires d > 0.0
  {
    (300.0 / (d * d)) / d
  }

  /** The push that a robot at `q` gives to a robot at `p`; none at distance zero. */
  function Push(h: Hypot, p: Vec, q: Vec): Vec {
    var d := Dist(h, p, q);
    if 0.0 < d < SEP_DIST then Scale(Sub(p, q), Strength(d)) else ZERO
  }

  function Pair(h: Hypot, r: Robot, o: Robot): Vec {
    if o.id == r.id then ZERO else Push(h, r.position, o.position)
  }

  function Repulsion(h: Hypot, rs: seq<Robot>, r: Robot): Vec {
    if rs == [] then ZERO else Add(Repulsion(h, rs[..|rs| - 1], r), Pair(h, r, rs[|rs| - 1]))
  }

  /** The velocity is local to the frame: the stored one is left alone. */
  function Move(r: Robot, fAtt: Vec, fRep: Vec): Robot {
    r.(position := Add(r.position, Scale(Add(fAtt, fRep), 0.8)))
  }

  function PotentialRobot(h: Hypot, rs: seq<Robot>, r: Robot, goal: Vec): Robot {
    Move(r, Attraction(h, r.position, goal), Repulsion(h, rs, r))
  }

  function Frame(h: Hypot, rs: seq<Robot>, goal: Vec): seq<Robot> {
    seq(|rs|, i requires 0 <= i < |rs| => PotentialRobot(h, rs, rs[i], goal))
  }

  // ---------- The loops of the source ----------

  lemma RepulsionStep(h: Hypot, rs: seq<Robot>, r: Robot, k: nat)
    requires k < |rs|
    ensures Repulsion(h, rs[..k + 1], r) == Add(Repulsion(h, rs[..k], r), Pair(h, r, rs[k]))
  {
    assert rs[..k + 1][..k] == rs[..k];
  }

  lemma SwapDivision(x: real, d: real, s: real)
    requires d != 0.0
    ensures (x / d) * s == x * (s / d)
  {
    var u := x / d;
    assert u * s == (u * d) * (s / d) by {
      assert (u * d) * (s / d) == u * (d * (s / d));
      assert d * (s / d) == s;
    }
  }

  lemma PushByComponents(h: Hypot, p: Vec, q: Vec, d: real, str: real)
    requires d == Dist(h, p, q) && 0.0 < d < SEP_DIST && str == 300.0 / (d * d)
    ensures Push(h, p, q) == Vec(((p.x - q.x) / d) * str, ((p.y - q.y) / d) * str)
  {
    var s := str / d;
    assert s == Strength(d);
    assert Push(h, p, q) == Scale(Sub(p, q), s);
    SwapDivision(p.x - q.x, d, str);
    SwapDivision(p.y - q.y, d, str);
  }

  lemma NoPush(h: Hypot, p: Vec, q: Vec)
    requires !(0.0 < Dist(h, p, q) < SEP_DIST)
    ensures Push(h, p, q) == ZERO
  {
  }

  /** The callback of `forEach`: it adds to the two components of `fRep` in place. */
  method Accumulate(h: Hypot, r: Robot, o: Robot, fx: real, fy: real) returns (gx: real, gy: real)
    ensures Vec(gx, gy) == Add(Vec(fx, fy), Pair(h, r, o))
  {
    gx, gy := fx, fy;
    if o.id == r.id {
      AddZero(Pair(h, r, o), Vec(fx, fy));
      return;
    }
    var rx := r.position.x - o.position.x;
    var ry := r.position.y - o.position.y;
    var d := h(rx, ry);
    if d > 0.0 && d < SEP_DIST {
      var str := 300.0 / (d * d);
      PushByComponents(h, r.position, o.position, d, str);
      var px, py := (rx / d) * str, (ry / d) * str;
      assert Pair(h, r, o) == Vec(px, py);
      gx := gx + px;
      gy := gy + py;
    } else {
      NoPush(h, r.position, o.position);
      AddZero(Pair(h, r, o), Vec(fx, fy));
    }
  }

  method SumRepulsion(h: Hypot, rs: seq<Robot>, r: Robot) returns (fRep: Vec)
    ensures fRep == Repulsion(h, rs, r)
  {
    var fx, fy := 0.0, 0.0;
    for k := 0 to |rs|
      invariant Repulsion(h, rs[..k], r) == Vec(fx, fy)
    {
      RepulsionStep(h, rs, r, k);
      fx, fy := Accumulate(h, r, rs[k], fx, fy);
    }
    assert rs[..|rs|] == rs;
    fRep := Vec(fx, fy);
  }

  method Attract(h: Hypot, r: Robot, cx: real, cy: real) returns (fAtt: Vec)
    ensures fAtt == Attraction(h, r.position, Vec(cx, cy))
  {
    var dx, dy := cx - r.position.x, cy - r.position.y;
    var distToGoal := h(dx, dy);
    fAtt := ZERO;
    if distToGoal > STOPPING_DIST {
      var dir := Vec(dx / distToGoal, dy / distToGoal);
      var speed := Min(distToGoal * 0.1, 5.0);
      SwapDivision(dx, distToGoal, speed);
      SwapDivision(dy, distToGoal, speed);
      fAtt := Vec(dir.x * speed, dir.y * speed);
    }
  }

  method MoveToPotentialField(h: Hypot, rs: seq<Robot>, cx: real, cy: real) returns (next: seq<Robot>)
    ensures next == Frame(h, rs, Vec(cx, cy))
  {
    next := [];
    for i := 0 to |rs|
      invariant next == Frame(h, rs, Vec(cx, cy))[..i]
    {
      var r := rs[i];
      var fAtt := Attract(h, r, cx, cy);
      var fRep := SumRepulsion(h, rs, r);
      var vx, vy := (fAtt.x + fRep.x) * 0.8, (fAtt.y + fRep.y) * 0.8;
      var moved := r.(position := Vec(r.position.x + vx, r.position.y + vy));
      assert moved == PotentialRobot(h, rs, r, Vec(cx, cy));
      next := next + [moved];
    }
  }

  /** Inverse-square law: between close robots the push has length 300 / d^2 and points straight
      away from the neighbour. */
  lemma PushLaw(h: Hypot, p: Vec, q: Vec)
    requires IsHypot(h)
    requires 0.0 < Dist(h, p, q) < SEP_DIST
    ensures Norm(h, Push(h, p, q)) == 300.0 / (Dist(h, p, q) * Dist(h, p, q))
    ensures exists s :: s > 0.0 && Push(h, p, q) == Scale(Sub(p, q), s)
  {
    var d := Dist(h, p, q);
    var s := Strength(d);
    assert Push(h, p, q) == Scale(Sub(p, q), s);
    PositiveStrength(d, s);
    NormScale(h, Sub(p, q), s);
  }

  lemma PositiveStrength(d: real, s: real)
    requires d > 0.0 && s == Strength(d)
    ensures s > 0.0 && s * d == 300.0 / (d * d)
  {
    MulPositive(d, d, d * d);
    var t := 300.0 / (d * d);
    assert t > 0.0;
    assert s * d == t;
    if s <= 0.0 {
      MulMonotone(s, 0.0, d);
    }
  }

  // ---------- The law of motion ----------

  /** The other robots closer than 20, except those on the very same spot. */
  function Close(h: Hypot, rs: seq<Robot>, r: Robot): seq<Robot> {
    if rs == [] then []
    else
      var o := rs[|rs| - 1];
      Close(h, rs[..|rs| - 1], r)
      + (if o.id != r.id && 0.0 < Dist(h, r.position, o.position) < 20.0 then [o] else [])
  }

  lemma {:induction false} CloseExactly(h: Hypot, rs: seq<Robot>, r: Robot, o: Robot)
    ensures o in Close(h, rs, r) <==> o in rs && o.id != r.id && 0.0 < Dist(h, r.position, o.position) < 20.0
    ensures o in Close(h, rs, r) ==> multiset(Close(h, rs, r))[o] == multiset(rs)[o]
  {
    if rs != [] {
      CloseExactly(h, rs[..|rs| - 1], r, o);
      assert rs == rs[..|rs| - 1] + [rs[|rs| - 1]];
    }
  }

  /** Inverse squares along the unit vectors that point at `p`. */
  function SumPushes(h: Hypot, rs: seq<Robot>, p: Vec): Vec {
    if rs == [] then ZERO
    else
      var q := rs[|rs| - 1].position;
      var d := Dist(h, p, q);
      Add(SumPushes(h, rs[..|rs| - 1], p),
          Scale(Normalize(h, Sub(p, q)), if d == 0.0 then 0.0 else 300.0 / (d * d)))
  }

  lemma PushIsInverseSquare(h: Hypot, p: Vec, q: Vec, d: real, s: real)
    requires IsHypot(h)
    requires d == Dist(h, p, q) && 0.0 < d < SEP_DIST && s == 300.0 / (d * d)
    ensures Push(h, p, q) == Scale(Normalize(h, Sub(p, q)), s)
  {
    PushByComponents(h, p, q, d, s);
  }

  lemma {:induction false} RepulsionIsSum(h: Hypot, rs: seq<Robot>, r: Robot)
    requires IsHypot(h)
    ensures Repulsion(h, rs, r) == SumPushes(h, Close(h, rs, r), r.position)
  {
    if rs != [] {
      RepulsionIsSum(h, rs[..|rs| - 1], r);
      LastRepulsion(h, rs, r);
      NextPush(h, Close(h, rs[..|rs| - 1], r), r, rs[|rs| - 1], Dist(h, r.position, rs[|rs| - 1].position));
    }
  }

  lemma NextPush(h: Hypot, near: seq<Robot>, r: Robot, o: Robot, d: real)
    requires IsHypot(h)
    requires d == Dist(h, r.position, o.position)
    ensures Add(SumPushes(h, near, r.position), Pair(h, r, o))
         == SumPushes(h, near + (if o.id != r.id && 0.0 < d < 20.0 then [o] else []), r.position)
  {
    hide *;
    if o.id != r.id && 0.0 < d < 20.0 {
      ClosePair(h, r, o, d, 300.0 / (d * d));
      SumPushesLast(h, near, o, r.position, d, 300.0 / (d * d));
    } else {
      FarPair(h, r, o, d);
      AddZero(Pair(h, r, o), SumPushes(h, near, r.position));
      assert near + [] == near;
    }
  }

  lemma ClosePair(h: Hypot, r: Robot, o: Robot, d: real, s: real)
    requires IsHypot(h)
    requires o.id != r.id && d == Dist(h, r.position, o.position) && 0.0 < d < 20.0 && s == 300.0 / (d * d)
    ensures Pair(h, r, o) == Scale(Normalize(h, Sub(r.position, o.position)), s)
  {
    PushIsInverseSquare(h, r.position, o.position, d, s);
  }

  lemma FarPair(h: Hypot, r: Robot, o: Robot, d: real)
    requires d == Dist(h, r.position, o.position) && !(o.id != r.id && 0.0 < d < 20.0)
    ensures Pair(h, r, o) == ZERO
  {
    if o.id != r.id {
      NoPush(h, r.position, o.position);
    }
  }

  lemma LastRepulsion(h: Hypot, rs: seq<Robot>, r: Robot)
    requires rs != []
    ensures Repulsion(h, rs, r) == Add(Repulsion(h, rs[..|rs| - 1], r), Pair(h, r, rs[|rs| - 1]))
  {
  }

  lemma SumPushesLast(h: Hypot, rs: seq<Robot>, o: Robot, p: Vec, d: real, s: real)
    requires d == Dist(h, p, o.position) && d != 0.0 && s == 300.0 / (d * d)
    ensures SumPushes(h, rs + [o], p) == Add(SumPushes(h, rs, p), Scale(Normalize(h, Sub(p, o.position)), s))
  {
    assert (rs + [o])[..|rs|] == rs;
  }

  /** The pull of the goal: none within 5, otherwise of length min(0.1 d, 5) along the line of
      sight. */
  lemma AttractionLaw(h: Hypot, p: Vec, goal: Vec, d: real)
    requires IsHypot(h)
    requires d == Dist(h, goal, p)
    ensures Attraction(h, p, goal)
         == if d <= 5.0 then ZERO else Scale(Normalize(h, Sub(goal, p)), Min(0.1 * d, 5.0))
  {
    if d > 5.0 {
      var m := Min(d * 0.1, 5.0);
      SwapDivision(goal.x - p.x, d, m);
      SwapDivision(goal.y - p.y, d, m);
    }
  }

  /** A frame moves a robot by 0.8 times the pull of the goal and the pushes of the close robots,
      and changes neither its id nor its stored velocity. */
  lemma FieldLaw(h: Hypot, rs: seq<Robot>, goal: Vec, i: nat)
    requires IsHypot(h)
    requires i < |rs|
    ensures var r, s := rs[i], Frame(h, rs, goal)[i];
            var d := Dist(h, goal, r.position);
            var pull := if d <= 5.0 then ZERO else Scale(Normalize(h, Sub(goal, r.position)), Min(0.1 * d, 5.0));
            && s.id == r.id && s.velocity == r.velocity
            && s.position
               == Add(r.position, Scale(Add(pull, SumPushes(h, Close(h, rs, r), r.position)), 0.8))
  {
    hide *;
    var r := rs[i];
    FrameMoves(h, rs, goal, i, Attraction(h, r.position, goal), Repulsion(h, rs, r));
    AttractionLaw(h, r.position, goal, Dist(h, goal, r.position));
    RepulsionIsSum(h, rs, r);
  }

  lemma FrameMoves(h: Hypot, rs: seq<Robot>, goal: Vec, i: nat, pull: Vec, push: Vec)
    requires i < |rs|
    requires pull == Attraction(h, rs[i].position, goal) && push == Repulsion(h, rs, rs[i])
    ensures var r, s := rs[i], Frame(h, rs, goal)[i];
            && s.id == r.id && s.velocity == r.velocity
            && s.position == Add(r.position, Scale(Add(pull, push), 0.8))
  {
  }

  // ---------- Robots that nobody pushes ----------

  /** No robot with another id is at a distance at which it pushes `r`. */
  ghost predicate Undisturbed(h: Hypot, rs: seq<Robot>, r: Robot) {
    forall j :: 0 <= j < |rs| && rs[j].id != r.id ==> !(0.0 < Dist(h, r.position, rs[j].position) < SEP_DIST)
  }

  lemma {:induction false} NoRepulsion(h: Hypot, rs: seq<Robot>, r: Robot)
    requires Undisturbed(h, rs, r)
    ensures Repulsion(h, rs, r) == ZERO
  {
    if rs != [] {
      var front, last := rs[..|rs| - 1], rs[|rs| - 1];
      NoRepulsion(h, front, r);
      if last.id != r.id {
        NoPush(h, r.position, last.position);
      }
      AddZero(Pair(h, r, last), Repulsion(h, front, r));
    }
  }

  // ---------- Repulsions cancel ----------

  function Neg(a: Vec): Vec {
    Vec(-a.x, -a.y)
  }

  lemma PairAntisymmetric(h: Hypot, r: Robot, o: Robot)
    requires IsHypot(h)
    ensures Pair(h, o, r) == Neg(Pair(h, r, o))
  {
    if r.id == o.id {
      assert Pair(h, o, r) == ZERO && Pair(h, r, o) == ZERO;
      NegZero();
    } else {
      assert Pair(h, o, r) == Push(h, o.position, r.position);
      assert Pair(h, r, o) == Push(h, r.position, o.position);
      PushAntisymmetric(h, r.position, o.position);
    }
  }

  lemma PushAntisymmetric(h: Hypot, p: Vec, q: Vec)
    requires IsHypot(h)
    ensures Push(h, q, p) == Neg(Push(h, p, q))
  {
    DistSymmetric(h, p, q);
    var d := Dist(h, p, q);
    if 0.0 < d < SEP_DIST {
      assert Push(h, p, q) == Scale(Sub(p, q), Strength(d));
      assert Push(h, q, p) == Scale(Sub(q, p), Strength(d));
      ReversedScale(p, q, Strength(d));
    } else {
      assert Push(h, p, q) == ZERO && Push(h, q, p) == ZERO;
      NegZero();
    }
  }

  lemma NegZero()
    ensures Neg(ZERO) == ZERO
  {
  }

  lemma ReversedScale(p: Vec, q: Vec, s: real)
    ensures Scale(Sub(q, p), s) == Neg(Scale(Sub(p, q), s))
  {
  }

  /** The sum, over every robot of `A`, of the repulsion it feels from all of `B`. */
  function TotalRepulsion(h: Hypot, A: seq<Robot>, B: seq<Robot>): Vec {
    if A == [] then ZERO else Add(TotalRepulsion(h, A[..|A| - 1], B), Repulsion(h, B, A[|A| - 1]))
  }

  /** Adding one source `o` at the end of `B` takes away what `o` itself feels from `A`. */
  lemma {:induction false} TotalLastSource(h: Hypot, A: seq<Robot>, B: seq<Robot>)
    requires IsHypot(h)
    requires B != []
    ensures TotalRepulsion(h, A, B)
         == Add(TotalRepulsion(h, A, B[..|B| - 1]), Neg(Repulsion(h, A, B[|B| - 1])))
  {
    var b, B' := B[|B| - 1], B[..|B| - 1];
    if A == [] {
      NegZero();
      AddZero(ZERO, Neg(ZERO));
    } else {
      var a, A' := A[|A| - 1], A[..|A| - 1];
      TotalLastSource(h, A', B);
      PairAntisymmetric(h, b, a);
      assert TotalRepulsion(h, A, B) == Add(TotalRepulsion(h, A', B), Repulsion(h, B, a));
      assert TotalRepulsion(h, A, B') == Add(TotalRepulsion(h, A', B'), Repulsion(h, B', a));
      assert Repulsion(h, A, b) == Add(Repulsion(h, A', b), Pair(h, b, a));
      assert Repulsion(h, B, a) == Add(Repulsion(h, B', a), Neg(Pair(h, b, a)));
      RegroupSource(TotalRepulsion(h, A', B'), Repulsion(h, A', b), Repulsion(h, B', a), Pair(h, b, a));
    }
  }

  lemma RegroupSource(t: Vec, u: Vec, v: Vec, w: Vec)
    ensures Add(Add(t, Neg(u)), Add(v, Neg(w))) == Add(Add(t, v), Neg(Add(u, w)))
  {
  }

  lemma {:induction false} TotalAntisymmetric(h: Hypot, A: seq<Robot>, B: seq<Robot>)
    requires IsHypot(h)
    ensures TotalRepulsion(h, A, B) == Neg(TotalRepulsion(h, B, A))
    decreases |A|
  {
    if A == [] {
      TotalOfNothing(h, B);
      NegZero();
    } else {
      var a, A' := A[|A| - 1], A[..|A| - 1];
      TotalAntisymmetric(h, A', B);
      TotalLastSource(h, B, A);
      NegatedSum(TotalRepulsion(h, B, A'), Repulsion(h, B, a));
      assert TotalRepulsion(h, A, B) == Add(TotalRepulsion(h, A', B), Repulsion(h, B, a));
    }
  }

  lemma NegatedSum(u: Vec, v: Vec)
    ensures Neg(Add(u, Neg(v))) == Add(Neg(u), v)
  {
  }

  lemma {:induction false} TotalOfNothing(h: Hypot, B: seq<Robot>)
    ensures TotalRepulsion(h, B, []) == ZERO
  {
    if B != [] {
      TotalOfNothing(h, B[..|B| - 1]);
    }
  }

  /** Action and reaction: over the whole swarm the repulsions of a frame sum to zero. */
  lemma RepulsionsCancel(h: Hypot, rs: seq<Robot>)
    requires IsHypot(h)
    ensures TotalRepulsion(h, rs, rs) == ZERO
  {
    TotalAntisymmetric(h, rs, rs);
  }

  // ---------- The centroid ----------

  function SumAttractions(h: Hypot, rs: seq<Robot>, goal: Vec): Vec {
    if rs == [] then
      ZERO
    else
      Add(SumAttractions(h, rs[..|rs| - 1], goal), Attraction(h, rs[|rs| - 1].position, goal))
  }

  function Centroid(rs: seq<Robot>): Vec
    requires rs != []
  {
    Scale(SumPositions(rs), 1.0 / |rs| as real)
  }

  lemma DampedSum(p: Vec, a: Vec, t: Vec, r: Vec, fa: Vec, fr: Vec)
    ensures Add(Add(p, Scale(Add(a, t), 0.8)), Add(r, Scale(Add(fa, fr), 0.8)))
         == Add(Add(p, r), Scale(Add(Add(a, fa), Add(t, fr)), 0.8))
  {
  }

  lemma DampedZero(z: Vec)
    requires z == ZERO
    ensures Add(z, Scale(Add(z, z), 0.8)) == z
    ensures Scale(z, 0.8) == z
  {
  }

  lemma EmptySum(p: Vec, a: Vec, t: Vec)
    requires p == a == t == ZERO
    ensures Add(p, Scale(Add(a, t), 0.8)) == p
  {
    DampedZero(p);
  }

  lemma {:induction false} PrefixSum(h: Hypot, rs: seq<Robot>, goal: Vec, k: nat, p: Vec, a: Vec, t: Vec)
    requires k <= |rs|
    requires p == SumPositions(rs[..k])
    requires a == SumAttractions(h, rs[..k], goal) && t == TotalRepulsion(h, rs[..k], rs)
    ensures SumPositions(Frame(h, rs, goal)[..k]) == Add(p, Scale(Add(a, t), 0.8))
    decreases k
  {
    if k == 0 {
      assert rs[..0] == [] && Frame(h, rs, goal)[..0] == [];
      EmptySum(p, a, t);
    } else {
      var front, r := rs[..k - 1], rs[k - 1];
      var p', a', t' := SumPositions(front), SumAttractions(h, front, goal), TotalRepulsion(h, front, rs);
      PrefixSum(h, rs, goal, k - 1, p', a', t');
      UnfoldSums(h, rs, goal, k);
      DampedSum(p', a', t', r.position, Attraction(h, r.position, goal), Repulsion(h, rs, r));
    }
  }

  lemma UnfoldSums(h: Hypot, rs: seq<Robot>, goal: Vec, k: nat)
    requires 0 < k <= |rs|
    ensures var next, r := Frame(h, rs, goal), rs[k - 1];
            && SumPositions(next[..k])
               == Add(SumPositions(next[..k - 1]),
                      Add(r.position, Scale(Add(Attraction(h, r.position, goal), Repulsion(h, rs, r)), 0.8)))
            && SumPositions(rs[..k]) == Add(SumPositions(rs[..k - 1]), r.position)
            && SumAttractions(h, rs[..k], goal)
               == Add(SumAttractions(h, rs[..k - 1], goal), Attraction(h, r.position, goal))
            && TotalRepulsion(h, rs[..k], rs)
               == Add(TotalRepulsion(h, rs[..k - 1], rs), Repulsion(h, rs, r))
  {
    var next := Frame(h, rs, goal);
    assert next[..k][..k - 1] == next[..k - 1] && rs[..k][..k - 1] == rs[..k - 1];
    assert next[..k][k - 1] == next[k - 1] && rs[..k][k - 1] == rs[k - 1];
  }

  /** A frame changes the sum of all positions by exactly 0.8 times the sum of attractions. */
  lemma MomentumOfFrame(h: Hypot, rs: seq<Robot>, goal: Vec)
    requires IsHypot(h)
    ensures SumPositions(Frame(h, rs, goal))
         == Add(SumPositions(rs), Scale(SumAttractions(h, rs, goal), 0.8))
  {
    var next := Frame(h, rs, goal);
    assert next[..|rs|] == next && rs[..|rs|] == rs;
    PrefixSum(h, rs, goal, |rs|, SumPositions(rs), SumAttractions(h, rs, goal), TotalRepulsion(h, rs, rs));
    RepulsionsCancel(h, rs);
    AddZero(TotalRepulsion(h, rs, rs), SumAttractions(h, rs, goal));
  }

  /** Outside the stopping distance the attraction has strength min(0.1 d, 5). */
  lemma AttractionNorm(h: Hypot, p: Vec, goal: Vec)
    requires IsHypot(h)
    requires Dist(h, goal, p) > STOPPING_DIST
    ensures Norm(h, Attraction(h, p, goal)) == Min(Dist(h, goal, p) * 0.1, 5.0)
  {
    var d := Dist(h, goal, p);
    var s := Min(d * 0.1, 5.0);
    NormScale(h, Sub(goal, p), s / d);
    assert (s / d) * d == s;
  }

  lemma AttractionBound(h: Hypot, p: Vec, goal: Vec)
    requires IsHypot(h)
    ensures Norm(h, Attraction(h, p, goal)) <= 5.0
  {
    if Dist(h, goal, p) > STOPPING_DIST {
      AttractionNorm(h, p, goal);
    } else {
      ZeroNorm(h, ZERO);
    }
  }

  lemma {:induction false} SumAttractionsBound(h: Hypot, rs: seq<Robot>, goal: Vec)
    requires IsHypot(h)
    ensures Norm(h, SumAttractions(h, rs, goal)) <= 5.0 * |rs| as real
  {
    if rs == [] {
      ZeroNorm(h, ZERO);
    } else {
      var front, last := rs[..|rs| - 1], rs[|rs| - 1];
      var s, a := SumAttractions(h, front, goal), Attraction(h, last.position, goal);
      SumAttractionsBound(h, front, goal);
      AttractionBound(h, last.position, goal);
      Triangle(h, s, a);
      assert SumAttractions(h, rs, goal) == Add(s, a);
      assert |rs| as real == |front| as real + 1.0;
    }
  }

  /** Within the stopping distance nothing pulls. */
  lemma {:induction false} NoAttraction(h: Hypot, rs: seq<Robot>, goal: Vec)
    requires forall i :: 0 <= i < |rs| ==> Dist(h, goal, rs[i].position) <= STOPPING_DIST
    ensures SumAttractions(h, rs, goal) == ZERO
  {
    if rs != [] {
      NoAttraction(h, rs[..|rs| - 1], goal);
      var a := Attraction(h, rs[|rs| - 1].position, goal);
      assert a == ZERO;
      AddZero(a, a);
    }
  }

  /** The centroid moves at most 4 in a frame, however hard robots repel each other. */
  lemma CentroidSpeed(h: Hypot, rs: seq<Robot>, goal: Vec)
    requires IsHypot(h)
    requires rs != []
    ensures Dist(h, Centroid(Frame(h, rs, goal)), Centroid(rs)) <= 4.0
  {
    var t, c := SumAttractions(h, rs, goal), 1.0 / |rs| as real;
    CentroidDrift(h, rs, goal, t, c);
    SumAttractionsBound(h, rs, goal);
    ShortDrift(h, t, c, |rs| as real);
  }

  lemma ShortDrift(h: Hypot, t: Vec, c: real, n: real)
    requires IsHypot(h)
    requires n > 0.0 && c == 1.0 / n && Norm(h, t) <= 5.0 * n
    ensures Norm(h, Scale(t, 0.8 * c)) <= 4.0
  {
    NormScale(h, t, 0.8 * c);
    MeanBound(Norm(h, t), n, c, Norm(h, Scale(t, 0.8 * c)));
  }

  lemma CentroidDrift(h: Hypot, rs: seq<Robot>, goal: Vec, t: Vec, c: real)
    requires IsHypot(h)
    requires rs != []
    requires t == SumAttractions(h, rs, goal) && c == 1.0 / |rs| as real
    ensures Sub(Centroid(Frame(h, rs, goal)), Centroid(rs)) == Scale(t, 0.8 * c)
  {
    MomentumOfFrame(h, rs, goal);
    CentroidShift(SumPositions(rs), t, c);
  }

  lemma MeanBound(t: real, n: real, c: real, d: real)
    requires t <= 5.0 * n && n > 0.0
    requires c == 1.0 / n && d == Abs(0.8 * c) * t
    ensures d <= 4.0
  {
    assert c > 0.0 && c * n == 1.0;
    MulMonotone(t, 5.0 * n, 0.8 * c);
    assert (5.0 * n) * (0.8 * c) == 4.0 * (c * n);
    assert d == t * (0.8 * c);
  }

  /** It does not move at all when every robot is within the stopping distance of the goal. */
  lemma CentroidRests(h: Hypot, rs: seq<Robot>, goal: Vec)
    requires IsHypot(h)
    requires rs != []
    requires forall i :: 0 <= i < |rs| ==> Dist(h, goal, rs[i].position) <= STOPPING_DIST
    ensures Centroid(Frame(h, rs, goal)) == Centroid(rs)
  {
    MomentumOfFrame(h, rs, goal);
    NoAttraction(h, rs, goal);
    DampedZero(ZERO);
    AddZero(Scale(SumAttractions(h, rs, goal), 0.8), SumPositions(rs));
    assert SumPositions(Frame(h, rs, goal)) == SumPositions(rs);
  }

  lemma CentroidShift(s: Vec, t: Vec, c: real)
    ensures Sub(Scale(Add(s, Scale(t, 0.8)), c), Scale(s, c)) == Scale(t, 0.8 * c)
  {
  }

  /** A single robot, in contrast, may jump arbitrarily far in one frame. */
  lemma DisplacementUnbounded(h: Hypot, bound: real)
    requires IsHypot(h)
    requires 0.0 <= bound
    ensures exists rs: seq<Robot>, goal: Vec, i: nat ::
              i < |rs| && Dist(h, Frame(h, rs, goal)[i].position, rs[i].position) > bound
  {
    var e := 1.0 / (bound + 1.0);
    var p := Vec(e, 0.0);
    var rs := [Robot(0, p, ZERO), Robot(1, ZERO, ZERO)];
    assert e > 0.0 && e * (bound + 1.0) == 1.0;
    CloseRepulsion(h, rs, e);
    var f := Repulsion(h, rs, rs[0]).x;
    var i: nat := 0;
    assert Dist(h, p, p) == 0.0 by {
      ZeroNorm(h, Sub(p, p));
    }
    var q := Frame(h, rs, p)[i].position;
    assert q == Vec(e + 0.8 * f, 0.0);
    NormUnique(h, Sub(q, p), 0.8 * f);
    assert f > 300.0 * bound;
    assert i < |rs| && Dist(h, Frame(h, rs, p)[i].position, rs[i].position) > bound;
  }

  lemma CloseRepulsion(h: Hypot, rs: seq<Robot>, e: real)
    requires IsHypot(h)
    requires 0.0 < e <= 1.0
    requires rs == [Robot(0, Vec(e, 0.0), ZERO), Robot(1, ZERO, ZERO)]
    ensures Repulsion(h, rs, rs[0]) == Vec(300.0 / (e * e), 0.0)
  {
    OnlyOther(h, rs);
    ClosePush(h, e);
  }

  lemma OnlyOther(h: Hypot, rs: seq<Robot>)
    requires |rs| == 2 && rs[0].id != rs[1].id
    ensures Repulsion(h, rs, rs[0]) == Push(h, rs[0].position, rs[1].position)
  {
    var r := rs[0];
    NoRepulsion(h, rs[..1], r);
    RepulsionStep(h, rs, r, 1);
    assert rs[..2] == rs;
    AddZero(Repulsion(h, rs[..1], r), Pair(h, r, rs[1]));
  }

  lemma ClosePush(h: Hypot, e: real)
    requires IsHypot(h)
    requires 0.0 < e <= 1.0
    ensures Push(h, Vec(e, 0.0), ZERO) == Vec(300.0 / (e * e), 0.0)
  {
    var p, str := Vec(e, 0.0), 300.0 / (e * e);
    NormUnique(h, Sub(p, ZERO), e);
    PushByComponents(h, p, ZERO, e, str);
    assert e / e == 1.0 && 0.0 / e == 0.0;
    assert 1.0 * str == str && 0.0 * str == 0.0;
  }
}
