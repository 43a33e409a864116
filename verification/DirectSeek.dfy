/** The single-robot mode, `directSeek` in `swarmbase-ui/app/page.tsx`.  The state updater of the
    source returns a list of one robot, except at distance zero, where it returns the bare
    robot; `Lone` is that broken state. */
module DirectSeek {
  import opened Vectors

  datatype RobotList = Many(rs: seq<Robot>) | Lone(r: Robot)

  function Seek(h: Hypot, r: Robot, goal: Vec): RobotList {
    var d := Dist(h, goal, r.position);
    if d == 0.0 then
      Lone(r)
    else
      var v := Scale(Scale(Sub(goal, r.position), 1.0 / d), 5.0);
      Many([r.(velocity := v, position := Add(r.position, v))])
  }

  method MoveDirectly(h: Hypot, rs: seq<Robot>, cx: real, cy: real) returns (next: RobotList)
    requires rs != []
    ensures next == Seek(h, rs[0], Vec(cx, cy))
  {
    var dx := cx - rs[0].position.x;
    var dy := cy - rs[0].position.y;
    var d := h(dx, dy);
    if d == 0.0 {
      return Lone(rs[0]);
    }
    var ux, uy := dx / d, dy / d;
    var vx := ux * 5.0;
    var vy := uy * 5.0;
    DivideIsScale(dx, d);
    DivideIsScale(dy, d);
    assert Vec(vx, vy) == Scale(Scale(Sub(Vec(cx, cy), rs[0].position), 1.0 / d), 5.0);
    next := Many([rs[0].(velocity := Vec(vx, vy),
                         position := Vec(rs[0].position.x + vx, rs[0].position.y + vy))]);
  }

  lemma DivideIsScale(x: real, d: real)
    requires d != 0.0
    ensures x / d == x * (1.0 / d)
  {
    var i := 1.0 / d;
    assert (x * i) * d == x * (i * d);
  }

  /** A run of k frames; it stops at the frame that breaks the list. */
  function Run(h: Hypot, r: Robot, goal: Vec, k: nat): RobotList
    decreases k
  {
    if k == 0 then Many([r])
    else
      match Seek(h, r, goal)
      case Lone(last) => Lone(last)
      case Many(next) => Run(h, next[0], goal, k - 1)
  }

  /** The signed distance to the goal along the starting line, negative beyond the goal. */
  function Signed(s: real, k: nat): real
    decreases k
  {
    if k == 0 then s else Signed(if s > 0.0 then s - 5.0 else s + 5.0, k - 1)
  }

  // ---------- One frame on the line ----------

  /** `r` stands at signed distance `s` from the goal on the line with unit direction `u`. */
  ghost predicate OnLine(h: Hypot, r: Robot, goal: Vec, u: Vec, s: real) {
    Norm(h, u) == 1.0 && Sub(goal, r.position) == Scale(u, s)
  }

  lemma LineDistance(h: Hypot, r: Robot, goal: Vec, u: Vec, s: real)
    requires IsHypot(h)
    requires OnLine(h, r, goal, u, s)
    ensures Dist(h, goal, r.position) == Abs(s)
  {
    NormScale(h, u, s);
  }

  lemma SeekOnLine(h: Hypot, r: Robot, goal: Vec, u: Vec, s: real)
    requires IsHypot(h)
    requires OnLine(h, r, goal, u, s) && s != 0.0
    ensures Seek(h, r, goal).Many? && |Seek(h, r, goal).rs| == 1
    ensures var next := Seek(h, r, goal).rs[0];
            && next.id == r.id
            && Norm(h, next.velocity) == 5.0
            && OnLine(h, next, goal, u, if s > 0.0 then s - 5.0 else s + 5.0)
  {
    LineDistance(h, r, goal, u, s);
    var sign := if s > 0.0 then 1.0 else -1.0;
    var v := Scale(Scale(Sub(goal, r.position), 1.0 / Abs(s)), 5.0);
    UnitStep(u, s, sign);
    assert v == Scale(u, 5.0 * sign);
    NormScale(h, u, 5.0 * sign);
    OffsetAfter(goal, r.position, u, s, 5.0 * sign);
  }

  lemma UnitStep(u: Vec, s: real, sign: real)
    requires s != 0.0
    requires sign == if s > 0.0 then 1.0 else -1.0
    ensures Scale(Scale(Scale(u, s), 1.0 / Abs(s)), 5.0) == Scale(u, 5.0 * sign)
  {
    var i := 1.0 / Abs(s);
    assert s * i == sign;
    assert (u.x * s) * i == u.x * (s * i);
    assert (u.y * s) * i == u.y * (s * i);
  }

  lemma OffsetAfter(goal: Vec, p: Vec, u: Vec, s: real, t: real)
    requires Sub(goal, p) == Scale(u, s)
    ensures Sub(goal, Add(p, Scale(u, t))) == Scale(u, s - t)
  {
  }

  /** Away from the goal the robot is displaced by the velocity it stores: 5 along the line of
      sight. */
  lemma SeekVelocity(h: Hypot, r: Robot, goal: Vec)
    requires IsHypot(h)
    requires goal != r.position
    ensures Seek(h, r, goal).Many? && |Seek(h, r, goal).rs| == 1
    ensures var next := Seek(h, r, goal).rs[0];
            && next.id == r.id
            && next.velocity == Scale(Normalize(h, Sub(goal, r.position)), 5.0)
            && next.position == Add(r.position, next.velocity)
            && Norm(h, next.velocity) == 5.0
  {
    var to := Sub(goal, r.position);
    NotThere(goal, r.position);
    ZeroNorm(h, to);
    NormalizeIsScale(h, to);
    NormScale(h, Normalize(h, to), 5.0);
  }

  // ---------- Signed distances ----------

  /** d becomes |d - 5|. */
  lemma {:induction false} SignedStep(s: real, k: nat)
    ensures Signed(s, k + 1) == (if Signed(s, k) > 0.0 then Signed(s, k) - 5.0 else Signed(s, k) + 5.0)
    ensures Signed(s, k) != 0.0 ==> Abs(Signed(s, k + 1)) == Abs(Abs(Signed(s, k)) - 5.0)
    decreases k
  {
    if k > 0 {
      SignedStep(if s > 0.0 then s - 5.0 else s + 5.0, k - 1);
    }
  }

  /** Starting at 5q + rest: q frames straight in, then an alternation between two points. */
  lemma {:induction false} SignedForm(q: nat, rest: real, k: nat)
    requires 0.0 <= rest < 5.0
    ensures k <= q ==> Signed(5.0 * q as real + rest, k) == 5.0 * (q - k) as real + rest
    ensures k > q && rest > 0.0
            ==> Signed(5.0 * q as real + rest, k) == (if (k - q) % 2 == 1 then rest - 5.0 else rest)
    decreases k
  {
    if k > 0 {
      SignedStep(5.0 * q as real + rest, k - 1);
      SignedForm(q, rest, k - 1);
    }
  }

  // ---------- Whole runs ----------

  lemma {:induction false} RunOnLine(h: Hypot, r: Robot, goal: Vec, u: Vec, s: real, k: nat)
    requires IsHypot(h)
    requires OnLine(h, r, goal, u, s)
    requires forall j: nat :: j < k ==> Signed(s, j) != 0.0
    ensures var end := Run(h, r, goal, k);
            && end.Many? && |end.rs| == 1
            && OnLine(h, end.rs[0], goal, u, Signed(s, k))
            && end.rs[0].id == r.id
            && (k > 0 ==> Norm(h, end.rs[0].velocity) == 5.0)
    decreases k
  {
    if k > 0 {
      assert Signed(s, 0) != 0.0;
      var s' := if s > 0.0 then s - 5.0 else s + 5.0;
      SeekOnLine(h, r, goal, u, s);
      forall j: nat | j < k - 1 ensures Signed(s', j) != 0.0 {
        assert Signed(s, j + 1) != 0.0;
      }
      RunOnLine(h, Seek(h, r, goal).rs[0], goal, u, s', k - 1);
    }
  }

  lemma {:induction false} RunBreaks(h: Hypot, r: Robot, goal: Vec, u: Vec, s: real, k: nat, j: nat)
    requires IsHypot(h)
    requires OnLine(h, r, goal, u, s)
    requires j < k && Signed(s, j) == 0.0
    ensures Run(h, r, goal, k).Lone?
    decreases k
  {
    LineDistance(h, r, goal, u, s);
    if s != 0.0 {
      SeekOnLine(h, r, goal, u, s);
      RunBreaks(h, Seek(h, r, goal).rs[0], goal, u, if s > 0.0 then s - 5.0 else s + 5.0, k - 1, j - 1);
    }
  }

  /** The signed distance after k frames from 5q + rest: straight in, then alternating. */
  function SignedAfter(q: nat, rest: real, k: nat): real {
    if k <= q then 5.0 * (q - k) as real + rest
    else if (k - q) % 2 == 1 then rest - 5.0 else rest
  }

  /** `end` is a list of one robot at signed distance `s` on the line with direction `u`, flying
      at speed 5 once it has moved. */
  ghost predicate EndsAt(h: Hypot, end: RobotList, goal: Vec, u: Vec, s: real, moved: bool) {
    && end.Many? && |end.rs| == 1
    && Sub(goal, end.rs[0].position) == Scale(u, s)
    && Dist(h, goal, end.rs[0].position) == Abs(s)
    && (moved ==> Norm(h, end.rs[0].velocity) == 5.0)
  }

  /** Where a run from distance d = 5q + rest leads.  It breaks the list within k frames
      exactly when rest is zero and q < k, that is, when d is a multiple of 5 that k frames
      suffice to cover.  Otherwise the robot is on its starting line (direction `u`), at
      distance d - 5k while k <= q, and then forever within 5 of the goal, alternating between
      the points at signed distances rest - 5 and rest; it always flies at speed 5. */
  lemma SeekRun(h: Hypot, r: Robot, goal: Vec, q: nat, rest: real, k: nat, u: Vec)
    requires IsHypot(h)
    requires 0.0 <= rest < 5.0
    requires Dist(h, goal, r.position) == 5.0 * q as real + rest
    requires u == Normalize(h, Sub(goal, r.position))
    ensures Run(h, r, goal, k).Lone? <==> rest == 0.0 && q < k
    ensures Run(h, r, goal, k).Many? ==> EndsAt(h, Run(h, r, goal, k), goal, u, SignedAfter(q, rest, k), k > 0)
    ensures q <= k && Run(h, r, goal, k).Many? ==> Abs(SignedAfter(q, rest, k)) < 5.0
  {
    var d := 5.0 * q as real + rest;
    if d == 0.0 {
      SeekAtGoal(h, r, goal, k, u);
    } else {
      StartOnLine(h, r, goal, u, d);
      SignedForm(q, rest, k);
      if rest == 0.0 && q < k {
        SignedForm(q, rest, q);
        RunBreaks(h, r, goal, u, d, k, q);
      } else {
        forall j: nat | j < k ensures Signed(d, j) != 0.0 {
          SignedForm(q, rest, j);
        }
        RunOnLine(h, r, goal, u, d, k);
        LineDistance(h, Run(h, r, goal, k).rs[0], goal, u, Signed(d, k));
      }
    }
  }

  lemma SeekAtGoal(h: Hypot, r: Robot, goal: Vec, k: nat, u: Vec)
    requires IsHypot(h)
    requires Dist(h, goal, r.position) == 0.0
    requires u == Normalize(h, Sub(goal, r.position))
    ensures if k > 0 then Run(h, r, goal, k) == Lone(r) else EndsAt(h, Run(h, r, goal, k), goal, u, 0.0, false)
  {
    ZeroNorm(h, Sub(goal, r.position));
    NormalizeZero(h, Sub(goal, r.position));
  }

  lemma NormalizeZero(h: Hypot, z: Vec)
    requires IsHypot(h) && z == ZERO
    ensures Scale(Normalize(h, z), 0.0) == z
  {
    ZeroNorm(h, z);
  }

  lemma StartOnLine(h: Hypot, r: Robot, goal: Vec, u: Vec, d: real)
    requires IsHypot(h)
    requires d == Dist(h, goal, r.position) > 0.0
    requires u == Normalize(h, Sub(goal, r.position))
    ensures OnLine(h, r, goal, u, d)
  {
    var w := Sub(goal, r.position);
    ZeroNorm(h, w);
    NormalizeIsScale(h, w);
    var i := 1.0 / d;
    assert (w.x * i) * d == w.x * (i * d);
    assert (w.y * i) * d == w.y * (i * d);
  }

  /** The distance covered by m frames. */
  function Covered(m: nat): real {
    5.0 * m as real
  }

  /** The exact condition under which a robot can be sent to a goal without ever breaking the
      state: its distance must not be a multiple of 5 (zero included). */
  lemma NeverBreaksIff(h: Hypot, r: Robot, goal: Vec)
    requires IsHypot(h)
    ensures (forall k: nat :: Run(h, r, goal, k).Many?)
       <==> (forall m: nat :: Dist(h, goal, r.position) != Covered(m))
  {
    var d := Dist(h, goal, r.position);
    NormSquared(h, Sub(goal, r.position));
    var q, rest := WholeFrames(d);
    if d == 0.0 {
      assert d == Covered(0);
      assert Run(h, r, goal, 1).Lone?;
    } else {
      var u := Normalize(h, Sub(goal, r.position));
      forall k: nat ensures Run(h, r, goal, k).Lone? <==> rest == 0.0 && q < k {
        SeekRun(h, r, goal, q, rest, k, u);
      }
      if rest == 0.0 {
        assert d == Covered(q);
        assert Run(h, r, goal, q + 1).Lone?;
      } else {
        forall m: nat ensures d != Covered(m) {
          assert m <= q || m >= q + 1;
        }
      }
    }
  }

  lemma WholeFrames(d: real) returns (q: nat, rest: real)
    requires 0.0 <= d
    ensures d == 5.0 * q as real + rest && 0.0 <= rest < 5.0
  {
    q := (d / 5.0).Floor;
    rest := d - 5.0 * q as real;
  }
}
