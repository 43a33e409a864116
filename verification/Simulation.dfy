/** The state of the page that drives the swarm, `swarmbase-ui/app/page.tsx`: the robot list, the
    target and the swarm type, what the last render saw of them, and what its effects left behind:
    the mirrored ref and the running timer.  Registrations, commands, mode buttons, renders,
    effects and timer ticks come in any order. */
module Simulation {
  import opened Vectors
  import opened DirectSeek
  import Boids
  import BoidsRuns
  import Coincident
  import Cruise
  import PotentialField
  import PotentialRuns
  import Sequences
  import Symmetry

  datatype SwarmType = PotentialMode | BoidsMode

  datatype Target = NoTarget | To(goal: Vec)

  /** The values a render captured; `canvas` is the list it handed to the canvas, which is the ref
      as it was at that time. */
  datatype View = View(robots: RobotList, target: Target, mode: SwarmType, canvas: RobotList)

  /** The interval armed by an effect keeps the target and the mode of the render it belongs to. */
  datatype Timer = NoTimer | Armed(goal: Vec, mode: SwarmType)

  /** `ref` is `robotsRef.current`.  `Crashed` is an exception thrown inside a state updater or an
      effect, after which React removes the page. */
  datatype State =
    | Live(robots: RobotList, target: Target, mode: SwarmType, shown: View, ref: RobotList, timer: Timer)
    | Crashed

  /** React renders some time after an update, and runs the effects of that render some time after
      it; a tick may come in between. */
  datatype Action = Register | Retarget(goal: Vec) | SetMode(mode: SwarmType) | Render | Effects | Tick

  const INIT: State :=
    Live(Many([]), NoTarget, BoidsMode, View(Many([]), NoTarget, BoidsMode, Many([])), Many([]), NoTimer)

  predicate Single(l: RobotList) {
    l.Many? && |l.rs| == 1
  }

  /** The dispatcher looks at the ref, the movement at the list. */
  function TickRobots(h: Hypot, s: State, goal: Vec, mode: SwarmType): State
    requires s.Live?
  {
    if s.robots.Lone? then
      Crashed
    else if Single(s.ref) then
      if s.robots.rs == [] then Crashed else s.(robots := Seek(h, s.robots.rs[0], goal))
    else if mode.BoidsMode? then
      s.(robots := Many(Boids.Frame(h, s.robots.rs, goal)))
    else
      s.(robots := Many(PotentialField.Frame(h, s.robots.rs, goal)))
  }

  function Arm(v: View): Timer {
    match v.target
    case NoTarget => NoTimer
    case To(goal) => Armed(goal, v.mode)
  }

  /** The effects of the last render; running them again changes nothing.  The canvas walks over
      its list and throws on a bare robot. */
  function AfterEffects(s: State): State
    requires s.Live?
  {
    if s.shown.canvas.Lone? then Crashed else s.(ref := s.shown.robots, timer := Arm(s.shown))
  }

  /** React runs the effects of the last render before it renders again. */
  function Rendered(s: State): State
    requires s.Live?
  {
    var t := AfterEffects(s);
    if t.Crashed? then t else t.(shown := View(t.robots, t.target, t.mode, t.ref))
  }

  function Next(h: Hypot, s: State, a: Action): State {
    if s.Crashed? then s
    else
      match a
      case Register =>
        if s.robots.Lone? then Crashed
        else s.(robots := Many(s.robots.rs + [Robot(|s.robots.rs|, ZERO, ZERO)]))
      case Retarget(goal) => s.(target := To(goal))
      case SetMode(mode) => s.(mode := mode)
      case Render => Rendered(s)
      case Effects => AfterEffects(s)
      case Tick => if s.timer.Armed? then TickRobots(h, s, s.timer.goal, s.timer.mode) else s
  }

  function Run(h: Hypot, s: State, actions: seq<Action>): State
    decreases |actions|
  {
    if actions == [] then s else Run(h, Next(h, s, actions[0]), actions[1..])
  }

  // ---------- The page as an object ----------

  class Page {
    const h: Hypot
    var robots: RobotList
    var target: Target
    var swarmType: SwarmType
    var shown: View
    var robotsRef: RobotList
    var timer: Timer
    var crashed: bool

    function State(): State
      reads this
    {
      if crashed then Crashed else Live(robots, target, swarmType, shown, robotsRef, timer)
    }

    constructor (h: Hypot)
      ensures this.h == h && State() == INIT
    {
      this.h := h;
      robots, target, swarmType := Many([]), NoTarget, BoidsMode;
      shown := View(Many([]), NoTarget, BoidsMode, Many([]));
      robotsRef, timer, crashed := Many([]), NoTimer, false;
    }

    method RegisterRobot()
      modifies this
      ensures State() == Next(h, old(State()), Register)
    {
      if crashed {
        return;
      }
      match robots
      case Lone(_) => crashed := true;
      case Many(rs) => robots := Many(rs + [Robot(|rs|, ZERO, ZERO)]);
    }

    method OnMoveCommand(x: real, y: real)
      modifies this
      ensures State() == Next(h, old(State()), Retarget(Vec(x, y)))
    {
      target := To(Vec(x, y));
    }

    method SetSwarmType(mode: SwarmType)
      modifies this
      ensures State() == Next(h, old(State()), SetMode(mode))
    {
      swarmType := mode;
    }

    method RunEffects()
      modifies this
      ensures State() == Next(h, old(State()), Effects)
    {
      if shown.canvas.Lone? {
        crashed := true;
        return;
      }
      robotsRef := shown.robots;
      timer := NoTimer;
      if shown.target.To? {
        timer := Armed(shown.target.goal, shown.mode);
      }
    }

    method RenderPage()
      modifies this
      ensures State() == Next(h, old(State()), Render)
    {
      RunEffects();
      shown := View(robots, target, swarmType, robotsRef);
    }

    method OnTimer()
      modifies this
      ensures State() == Next(h, old(State()), Tick)
    {
      if crashed || timer.NoTimer? {
        return;
      }
      var cx, cy := timer.goal.x, timer.goal.y;
      if robots.Lone? {
        crashed := true;
      } else if robotsRef.Many? && |robotsRef.rs| == 1 {
        if robots.rs == [] {
          crashed := true;
        } else {
          robots := MoveDirectly(h, robots.rs, cx, cy);
        }
      } else if timer.mode.BoidsMode? {
        var next := Boids.MoveToBoids(h, robots.rs, cx, cy);
        robots := Many(next);
      } else {
        var next := PotentialField.MoveToPotentialField(h, robots.rs, cx, cy);
        robots := Many(next);
      }
    }
  }

  // ---------- Sequences of actions ----------

  lemma {:induction false} RunActions(h: Hypot, s: State, a: seq<Action>, b: seq<Action>)
    ensures Run(h, s, a + b) == Run(h, Run(h, s, a), b)
    decreases |a|
  {
    if a == [] {
      assert a + b == b;
    } else {
      assert (a + b)[1..] == a[1..] + b;
      RunActions(h, Next(h, s, a[0]), a[1..], b);
    }
  }

  lemma ThreeActions(h: Hypot, s: State, a: Action, b: Action, c: Action)
    ensures Run(h, s, [a]) == Next(h, s, a)
    ensures Run(h, s, [a, b]) == Next(h, Next(h, s, a), b)
    ensures Run(h, s, [a, b, c]) == Next(h, Next(h, Next(h, s, a), b), c)
  {
    var t := Next(h, Next(h, s, a), b);
    assert [a, b, c][1..] == [b, c] && [b, c][1..] == [c] && [c][1..] == [];
    assert [a, b][1..] == [b] && [b][1..] == [] && [a][1..] == [];
    assert Run(h, s, [a]) == Run(h, Next(h, s, a), []);
    assert Run(h, t, [c]) == Run(h, Next(h, t, c), []);
    assert Run(h, Next(h, s, a), [b]) == Run(h, t, []);
    assert Run(h, Next(h, s, a), [b, c]) == Run(h, t, [c]);
  }

  lemma {:induction false} CrashedStays(h: Hypot, actions: seq<Action>)
    ensures Run(h, Crashed, actions) == Crashed
    decreases |actions|
  {
    if actions != [] {
      CrashedStays(h, actions[1..]);
    }
  }

  // ---------- What ticks see, and when ----------

  /** The list and all its copies are lists. */
  predicate Listed(s: State) {
    s.Live? && s.robots.Many? && s.ref.Many? && s.shown.robots.Many? && s.shown.canvas.Many?
  }

  /** The last render saw the present state and its effects have run. */
  predicate Settled(s: State, l: RobotList, goal: Vec, mode: SwarmType) {
    && s.Live? && s.robots == s.shown.robots == s.ref == l
    && s.target == s.shown.target == To(goal) && s.mode == s.shown.mode == mode
    && s.timer == Armed(goal, mode) && s.shown.canvas.Many?
  }

  /** The same page up to the target and the mode that the next render will capture. */
  predicate SameButEdits(s: State, t: State) {
    if s.Crashed? then t.Crashed? else t.Live? && t == s.(target := t.target, mode := t.mode)
  }

  lemma {:induction false} UnseenUntilRender(h: Hypot, s: State, t: State, actions: seq<Action>)
    requires SameButEdits(s, t) && Render !in actions
    ensures SameButEdits(Run(h, s, actions), Run(h, t, actions))
    decreases |actions|
  {
    if actions != [] {
      assert actions[0] in actions;
      UnseenUntilRender(h, Next(h, s, actions[0]), Next(h, t, actions[0]), actions[1..]);
    }
  }

  lemma {:induction false} EditsOnly(h: Hypot, s: State, edits: seq<Action>)
    requires forall i :: 0 <= i < |edits| ==> edits[i].Retarget? || edits[i].SetMode?
    ensures SameButEdits(s, Run(h, s, edits))
    decreases |edits|
  {
    if edits != [] {
      EditsOnly(h, Next(h, s, edits[0]), edits[1..]);
    }
  }

  /** Commands and mode buttons stay invisible to everything, ticks, effects and registrations
      included, until the page is rendered: the running timer keeps its target and mode. */
  lemma EditsInvisible(h: Hypot, s: State, edits: seq<Action>, rest: seq<Action>)
    requires forall i :: 0 <= i < |edits| ==> edits[i].Retarget? || edits[i].SetMode?
    requires Render !in rest
    ensures SameButEdits(Run(h, s, rest), Run(h, s, edits + rest))
  {
    EditsOnly(h, s, edits);
    UnseenUntilRender(h, s, Run(h, s, edits), rest);
    RunActions(h, s, edits, rest);
  }

  /** Effects that have run have nothing more to do, and a render does not lose those that are
      due. */
  lemma EffectsOnce(h: Hypot, s: State)
    ensures Run(h, s, [Effects, Effects]) == Run(h, s, [Effects])
    ensures Run(h, s, [Effects, Render]) == Run(h, s, [Render])
  {
    ThreeActions(h, s, Effects, Effects, Effects);
    ThreeActions(h, s, Effects, Render, Effects);
    ThreeActions(h, s, Render, Effects, Effects);
  }

  function ModeFrame(h: Hypot, rs: seq<Robot>, goal: Vec, mode: SwarmType): seq<Robot> {
    if mode.BoidsMode? then Boids.Frame(h, rs, goal) else PotentialField.Frame(h, rs, goal)
  }

  /** Any tick of a page with robots: `directSeek` for robot 0 when the ref has length one, else the
      frame of the captured mode towards the captured target, on the current list. */
  lemma TickLaw(h: Hypot, s: State)
    requires Listed(s) && s.robots.rs != [] && s.timer.Armed?
    ensures var t := Run(h, s, [Tick]);
            && t.Live? && t == s.(robots := t.robots)
            && t.robots == (if |s.ref.rs| == 1 then Seek(h, s.robots.rs[0], s.timer.goal)
                            else Many(ModeFrame(h, s.robots.rs, s.timer.goal, s.timer.mode)))
  {
    ThreeActions(h, s, Tick, Tick, Tick);
  }

  /** When a new target and mode reach a moving swarm: not at the next tick, nor after the next
      render, but once the effects of that render have run. */
  lemma CommandArrives(h: Hypot, s: State, rs: seq<Robot>, goal: Vec, mode: SwarmType, to: Vec, swarm: SwarmType)
    requires |rs| >= 2 && Settled(s, Many(rs), goal, mode)
    ensures var edits := [Retarget(to), SetMode(swarm)];
            && Run(h, s, edits + [Tick]).Live? && Run(h, s, edits + [Render, Tick]).Live?
            && Run(h, s, edits + [Render, Effects, Tick]).Live?
            && Run(h, s, edits + [Tick]).robots == Many(ModeFrame(h, rs, goal, mode))
            && Run(h, s, edits + [Render, Tick]).robots == Many(ModeFrame(h, rs, goal, mode))
            && Run(h, s, edits + [Render, Effects, Tick]).robots == Many(ModeFrame(h, rs, to, swarm))
  {
    var edits := [Retarget(to), SetMode(swarm)];
    var t := Next(h, Next(h, s, Retarget(to)), SetMode(swarm));
    ThreeActions(h, s, Retarget(to), SetMode(swarm), Tick);
    RunActions(h, s, edits, [Tick]);
    RunActions(h, s, edits, [Render, Tick]);
    RunActions(h, s, edits, [Render, Effects, Tick]);
    ThreeActions(h, t, Tick, Tick, Tick);
    ThreeActions(h, t, Render, Tick, Tick);
    ThreeActions(h, t, Render, Effects, Tick);
  }

  /** A robot registered at any time starts at rest at the origin, with the list length as id, and
      takes part in the very next tick although no render has seen it. */
  lemma JoinsAtOnce(h: Hypot, s: State, rs: seq<Robot>, goal: Vec, mode: SwarmType)
    requires |rs| >= 2 && Settled(s, Many(rs), goal, mode)
    ensures var t := Run(h, s, [Register, Tick]);
            && t.Live? && t.ref == Many(rs)
            && t.robots == Many(ModeFrame(h, rs + [Robot(|rs|, Vec(0.0, 0.0), Vec(0.0, 0.0))], goal, mode))
  {
    ThreeActions(h, s, Register, Tick, Tick);
  }

  /** `Retarget(goal)` is the last command. */
  ghost predicate LastTarget(actions: seq<Action>, goal: Vec) {
    exists i :: 0 <= i < |actions| && actions[i] == Retarget(goal)
      && forall j :: i < j < |actions| ==> !actions[j].Retarget?
  }

  /** `mode` is the one chosen last, or flocking if none was chosen. */
  ghost predicate LastMode(actions: seq<Action>, mode: SwarmType) {
    || (mode.BoidsMode? && forall j :: 0 <= j < |actions| ==> !actions[j].SetMode?)
    || (exists i :: 0 <= i < |actions| && actions[i] == SetMode(mode)
          && forall j :: i < j < |actions| ==> !actions[j].SetMode?)
  }

  lemma {:induction false} Keeps(h: Hypot, s: State, actions: seq<Action>)
    ensures var t := Run(h, s, actions);
            s.Live? && t.Live? ==>
              && ((forall j :: 0 <= j < |actions| ==> !actions[j].Retarget?) ==> t.target == s.target)
              && ((forall j :: 0 <= j < |actions| ==> !actions[j].SetMode?) ==> t.mode == s.mode)
    decreases |actions|
  {
    if actions != [] {
      Keeps(h, Next(h, s, actions[0]), actions[1..]);
      CrashedStays(h, actions[1..]);
    }
  }

  lemma SplitRun(h: Hypot, s: State, actions: seq<Action>, i: nat)
    requires i < |actions|
    ensures Run(h, s, actions) == Run(h, Next(h, Run(h, s, actions[..i]), actions[i]), actions[i + 1..])
  {
    assert actions == actions[..i] + actions[i..];
    assert actions[i..][1..] == actions[i + 1..];
    RunActions(h, s, actions[..i], actions[i..]);
  }

  /** The last command and the last mode decide, whatever lies before and between. */
  lemma LastDecides(h: Hypot, actions: seq<Action>, goal: Vec, mode: SwarmType)
    ensures var s := Run(h, INIT, actions);
            s.Live? ==>
              && (LastTarget(actions, goal) ==> s.target == To(goal))
              && (LastMode(actions, mode) ==> s.mode == mode)
  {
    if LastTarget(actions, goal) {
      var i :| 0 <= i < |actions| && actions[i] == Retarget(goal)
        && forall j :: i < j < |actions| ==> !actions[j].Retarget?;
      LastEdit(h, actions, i);
    }
    if exists i :: 0 <= i < |actions| && actions[i] == SetMode(mode)
         && forall j :: i < j < |actions| ==> !actions[j].SetMode? {
      var i :| 0 <= i < |actions| && actions[i] == SetMode(mode)
        && forall j :: i < j < |actions| ==> !actions[j].SetMode?;
      LastEdit(h, actions, i);
    }
    Keeps(h, INIT, actions);
  }

  lemma LastEdit(h: Hypot, actions: seq<Action>, i: nat)
    requires i < |actions|
    ensures var s, rest := Run(h, INIT, actions), actions[i + 1..];
            s.Live? ==>
              && (actions[i].Retarget? && (forall j :: i < j < |actions| ==> !actions[j].Retarget?)
                  ==> s.target == To(actions[i].goal))
              && (actions[i].SetMode? && (forall j :: i < j < |actions| ==> !actions[j].SetMode?)
                  ==> s.mode == actions[i].mode)
  {
    var rest := actions[i + 1..];
    var before := Run(h, INIT, actions[..i]);
    SplitRun(h, INIT, actions, i);
    Keeps(h, Next(h, before, actions[i]), rest);
    CrashedStays(h, rest);
    assert forall j :: 0 <= j < |rest| ==> rest[j] == actions[i + 1 + j];
  }

  // ---------- Reachable states ----------

  ghost predicate GoodRobots(h: Hypot, rs: seq<Robot>) {
    forall i :: 0 <= i < |rs| ==> rs[i].id == i && Norm(h, rs[i].velocity) <= 5.0
  }

  ghost predicate GoodList(h: Hypot, l: RobotList) {
    match l
    case Many(rs) => GoodRobots(h, rs)
    case Lone(r) => r.id == 0 && Norm(h, r.velocity) <= 5.0
  }

  /** Robot i has id i, so the comparison of ids in the neighbour loops excludes exactly the robot
      itself; every speed is at most 5; the copies are never ahead of the list. */
  ghost predicate Good(h: Hypot, s: State) {
    s.Live? ==>
      && GoodList(h, s.robots)
      && (s.robots.Many? ==> Listed(s))
      && (s.robots == Many([]) ==> s.ref == s.shown.robots == Many([]))
  }

  lemma GoodSeek(h: Hypot, rs: seq<Robot>, goal: Vec)
    requires IsHypot(h)
    requires rs != [] && GoodRobots(h, rs)
    ensures GoodList(h, Seek(h, rs[0], goal)) && Seek(h, rs[0], goal) != Many([])
  {
    var d := Dist(h, goal, rs[0].position);
    NormSquared(h, Sub(goal, rs[0].position));
    if d != 0.0 {
      var u := Normalize(h, Sub(goal, rs[0].position));
      StartOnLine(h, rs[0], goal, u, d);
      SeekOnLine(h, rs[0], goal, u, d);
    }
  }

  lemma GoodBoids(h: Hypot, rs: seq<Robot>, goal: Vec)
    requires IsHypot(h)
    requires GoodRobots(h, rs)
    ensures GoodRobots(h, Boids.Frame(h, rs, goal))
  {
    forall i | 0 <= i < |rs|
      ensures Boids.Frame(h, rs, goal)[i].id == i && Norm(h, Boids.Frame(h, rs, goal)[i].velocity) <= 5.0
    {
      Boids.FrameBounds(h, rs, goal, i);
    }
  }

  lemma GoodTick(h: Hypot, s: State, goal: Vec, mode: SwarmType)
    requires IsHypot(h)
    requires s.Live? && Good(h, s)
    ensures Good(h, TickRobots(h, s, goal, mode))
  {
    if s.robots.Many? {
      var rs := s.robots.rs;
      if Single(s.ref) {
        GoodSeek(h, rs, goal);
      } else if mode.BoidsMode? {
        GoodBoids(h, rs, goal);
      } else {
        assert GoodRobots(h, PotentialField.Frame(h, rs, goal));
      }
    }
  }

  lemma GoodNext(h: Hypot, s: State, a: Action)
    requires IsHypot(h)
    requires Good(h, s)
    ensures Good(h, Next(h, s, a))
  {
    if s.Live? {
      match a
      case Register =>
        ZeroNorm(h, ZERO);
      case Tick =>
        if s.timer.Armed? {
          GoodTick(h, s, s.timer.goal, s.timer.mode);
        }
      case _ =>
    }
  }

  lemma {:induction false} GoodRun(h: Hypot, s: State, actions: seq<Action>)
    requires IsHypot(h)
    requires Good(h, s)
    ensures Good(h, Run(h, s, actions))
    decreases |actions|
  {
    if actions != [] {
      GoodNext(h, s, actions[0]);
      GoodRun(h, Next(h, s, actions[0]), actions[1..]);
    }
  }

  /** Every mix of registrations, retargets, mode switches, renders, effects and ticks from the
      empty page leads to a state with these properties. */
  lemma Reachable(h: Hypot, actions: seq<Action>)
    requires IsHypot(h)
    ensures var s := Run(h, INIT, actions);
            s.Live? && s.robots.Many? ==> DistinctIds(s.robots.rs) && GoodRobots(h, s.robots.rs)
  {
    GoodRun(h, INIT, actions);
  }

  /** The exact ways a reachable page breaks.  The list turns into a bare robot when a tick finds
      the only mirrored robot on the target of the timer.  Then the next registration or tick
      throws, and so do the effects of a render that handed the bare robot to the canvas. */
  lemma BreakIff(h: Hypot, s: State, a: Action)
    requires IsHypot(h)
    requires s.Live? && Good(h, s)
    ensures Next(h, s, a).Crashed?
       <==> || (s.robots.Lone? && (a.Register? || (a.Tick? && s.timer.Armed?)))
            || (s.shown.canvas.Lone? && (a.Effects? || a.Render?))
    ensures s.robots.Many? ==>
      (var t := Next(h, s, a);
       t.Live? && (t.robots.Lone?
                   <==> a.Tick? && s.timer.Armed? && Single(s.ref)
                        && s.robots.rs[0].position == s.timer.goal))
  {
    if s.robots.Many? && s.robots.rs != [] && s.timer.Armed? {
      var w := Sub(s.timer.goal, s.robots.rs[0].position);
      ZeroNorm(h, w);
    }
  }

  // ---------- Frames of a settled page ----------

  /** k timer ticks, each followed by its render and the effects. */
  function Frames(k: nat): seq<Action> {
    if k == 0 then [] else [Tick, Render, Effects] + Frames(k - 1)
  }

  function AfterFrame(h: Hypot, s: State): State {
    Next(h, Next(h, Next(h, s, Tick), Render), Effects)
  }

  lemma OneFrame(h: Hypot, s: State, k: nat)
    requires k > 0
    ensures Run(h, s, Frames(k)) == Run(h, AfterFrame(h, s), Frames(k - 1))
  {
    RunActions(h, s, [Tick, Render, Effects], Frames(k - 1));
    ThreeActions(h, s, Tick, Render, Effects);
  }

  lemma SettledFrame(h: Hypot, s: State, rs: seq<Robot>, goal: Vec, mode: SwarmType)
    requires rs != [] && Settled(s, Many(rs), goal, mode)
    ensures Settled(AfterFrame(h, s), TickRobots(h, s, goal, mode).robots, goal, mode)
  {
  }

  // ---------- The page with a single robot ----------

  /** While one robot is registered the page follows the `directSeek` run; it throws one frame
      after that run has replaced the list by a bare robot. */
  lemma {:induction false} PageFollowsSeek(h: Hypot, s: State, r: Robot, goal: Vec, mode: SwarmType, k: nat)
    requires Settled(s, Many([r]), goal, mode)
    ensures var t := Run(h, s, Frames(k));
            && (t.Crashed? <==> k > 0 && DirectSeek.Run(h, r, goal, k - 1).Lone?)
            && (t.Live? ==> Settled(t, DirectSeek.Run(h, r, goal, k), goal, mode))
    decreases k
  {
    if k > 0 {
      OneFrame(h, s, k);
      SettledFrame(h, s, [r], goal, mode);
      var t := AfterFrame(h, s);
      match Seek(h, r, goal)
      case Many(next) =>
        PageFollowsSeek(h, t, next[0], goal, mode, k - 1);
      case Lone(last) =>
        assert DirectSeek.Run(h, r, goal, k) == Lone(last);
        if k > 1 {
          assert DirectSeek.Run(h, r, goal, k - 1) == Lone(last);
          OneFrame(h, t, k - 1);
          assert AfterFrame(h, t) == Crashed;
          CrashedStays(h, Frames(k - 2));
        } else {
          assert Run(h, t, Frames(0)) == t;
        }
    }
  }

  ghost predicate Survives(h: Hypot, s: State) {
    forall k: nat :: Run(h, s, Frames(k)).Live?
  }

  /** A page with one robot and a fixed target keeps running exactly when the initial distance is
      no multiple of 5. */
  lemma PageSurvivesIff(h: Hypot, s: State, r: Robot, goal: Vec, mode: SwarmType)
    requires IsHypot(h)
    requires Settled(s, Many([r]), goal, mode)
    ensures Survives(h, s) <==> (forall m: nat :: Dist(h, goal, r.position) != Covered(m))
  {
    NeverBreaksIff(h, r, goal);
    if forall k: nat :: DirectSeek.Run(h, r, goal, k).Many? {
      forall k: nat ensures Run(h, s, Frames(k)).Live? {
        PageFollowsSeek(h, s, r, goal, mode, k);
      }
    } else {
      var k: nat :| !DirectSeek.Run(h, r, goal, k).Many?;
      var n: nat := k + 1;
      PageFollowsSeek(h, s, r, goal, mode, n);
      assert !Run(h, s, Frames(n)).Live?;
    }
  }

  /** A render and its effects settle the page, whatever state it was in. */
  lemma SettledAfter(h: Hypot, s: State)
    requires Listed(s) && s.target.To?
    ensures Run(h, s, [Render, Effects]) == Next(h, Next(h, s, Render), Effects)
    ensures Settled(Run(h, s, [Render, Effects]), s.robots, s.target.goal, s.mode)
  {
    ThreeActions(h, s, Render, Effects, Tick);
  }

  function SendOne(goal: Vec): seq<Action> {
    [Register, Retarget(goal)] + [Render, Effects]
  }

  /** The failing side is reached from the empty page: one robot, registered, sent to (3, 4) and
      rendered, stands on its target after one frame, is left bare by the second, and throws in the
      third. */
  lemma CrashReachable(h: Hypot)
    requires IsHypot(h)
    ensures Run(h, INIT, SendOne(Vec(3.0, 4.0)) + Frames(2)).Live?
    ensures Run(h, INIT, SendOne(Vec(3.0, 4.0)) + Frames(3)).Crashed?
  {
    var goal := Vec(3.0, 4.0);
    NormUnique(h, goal, 5.0);
    CrashFrom(h, goal, Robot(0, ZERO, ZERO), 1);
  }

  lemma CrashFrom(h: Hypot, goal: Vec, r: Robot, q: nat)
    requires IsHypot(h)
    requires r == Robot(0, ZERO, ZERO) && Norm(h, goal) == 5.0 * q as real
    ensures Run(h, INIT, SendOne(goal) + Frames(q + 1)).Live?
    ensures Run(h, INIT, SendOne(goal) + Frames(q + 2)).Crashed?
  {
    var s := Run(h, INIT, SendOne(goal));
    var u := Normalize(h, Sub(goal, r.position));
    FirstRobotSent(h, goal, r);
    RunActions(h, INIT, SendOne(goal), Frames(q + 1));
    RunActions(h, INIT, SendOne(goal), Frames(q + 2));
    FromOrigin(h, goal, r.position);
    SeekRun(h, r, goal, q, 0.0, q, u);
    SeekRun(h, r, goal, q, 0.0, q + 1, u);
    PageFollowsSeek(h, s, r, goal, BoidsMode, q + 1);
    PageFollowsSeek(h, s, r, goal, BoidsMode, q + 2);
  }

  lemma FirstRobotSent(h: Hypot, goal: Vec, r: Robot)
    requires r == Robot(0, ZERO, ZERO)
    ensures Settled(Run(h, INIT, SendOne(goal)), Many([r]), goal, BoidsMode)
  {
    var s := Next(h, Next(h, INIT, Register), Retarget(goal));
    RunActions(h, INIT, [Register, Retarget(goal)], [Render, Effects]);
    ThreeActions(h, INIT, Register, Retarget(goal), Tick);
    assert s.robots.rs == [r];
    SettledAfter(h, s);
  }

  lemma FromOrigin(h: Hypot, goal: Vec, z: Vec)
    requires z == ZERO
    ensures Dist(h, goal, z) == Norm(h, goal)
  {
  }

  // ---------- When the swarm survives everything ----------

  /** The whole list is about to go through `directSeek`: the ref has length one and a timer runs,
      or the render whose effects come next saw a single robot and a target. */
  predicate SeekPending(s: State) {
    s.Live? && ((Single(s.ref) && s.timer.Armed?) || (Single(s.shown.robots) && s.shown.target.To?))
  }

  /** Several robots, none of the copies broken, and no `directSeek` to come. */
  predicate Secure(s: State) {
    Listed(s) && |s.robots.rs| >= 2 && !SeekPending(s)
  }

  lemma SecureNext(h: Hypot, s: State, a: Action)
    requires Secure(s)
    ensures Secure(Next(h, s, a))
    ensures |Next(h, s, a).robots.rs| >= |s.robots.rs|
  {
  }

  lemma {:induction false} SecureRun(h: Hypot, s: State, actions: seq<Action>)
    requires Secure(s)
    ensures Secure(Run(h, s, actions))
    decreases |actions|
  {
    if actions != [] {
      SecureNext(h, s, actions[0]);
      SecureRun(h, Next(h, s, actions[0]), actions[1..]);
    }
  }

  ghost predicate SurvivesAll(h: Hypot, s: State) {
    forall actions: seq<Action> :: Run(h, s, actions).Live?
  }

  /** A reachable page survives every continuation exactly when it holds at least two robots and no
      `directSeek` is pending. */
  lemma SurvivesAllIff(h: Hypot, s: State)
    requires IsHypot(h)
    requires s.Live? && Good(h, s)
    ensures SurvivesAll(h, s) <==> s.robots.Many? && |s.robots.rs| >= 2 && !SeekPending(s)
  {
    if s.robots.Many? && |s.robots.rs| >= 2 && !SeekPending(s) {
      forall actions: seq<Action> ensures Run(h, s, actions).Live? {
        SecureRun(h, s, actions);
      }
    } else {
      var actions := Doom(h, s);
      assert !Run(h, s, actions).Live?;
    }
  }

  /** Actions that end any other page. */
  lemma Doom(h: Hypot, s: State) returns (actions: seq<Action>)
    requires IsHypot(h)
    requires s.Live? && Good(h, s)
    requires s.robots.Many? && |s.robots.rs| >= 2 ==> SeekPending(s)
    ensures Run(h, s, actions).Crashed?
  {
    if s.robots.Lone? || |s.robots.rs| == 1 {
      actions := DoomFew(h, s);
    } else {
      var a := if s.robots.rs == [] then Register else if Single(s.ref) && s.timer.Armed? then Tick else Effects;
      var t := Next(h, s, a);
      GoodNext(h, s, a);
      var rest;
      if a.Effects? {
        GoodNext(h, t, Tick);
        rest := DoomFew(h, Next(h, t, Tick));
        actions := [Effects, Tick] + rest;
        ThreeActions(h, s, Effects, Tick, Tick);
        RunActions(h, s, [Effects, Tick], rest);
      } else {
        rest := DoomFew(h, t);
        actions := [a] + rest;
        ThreeActions(h, s, a, a, a);
        RunActions(h, s, [a], rest);
      }
    }
  }

  /** A bare robot cannot be joined by another; a single one is sent to the place where it
      stands. */
  lemma DoomFew(h: Hypot, s: State) returns (actions: seq<Action>)
    requires IsHypot(h)
    requires s.Live? && Good(h, s)
    requires s.robots.Lone? || |s.robots.rs| == 1
    ensures Run(h, s, actions).Crashed?
  {
    if s.robots.Lone? {
      actions := [Register];
      ThreeActions(h, s, Register, Register, Register);
    } else {
      var p := s.robots.rs[0].position;
      var t := Next(h, s, Retarget(p));
      actions := [Retarget(p)] + ([Render, Effects] + [Tick, Register]);
      ThreeActions(h, s, Retarget(p), Tick, Tick);
      RunActions(h, s, [Retarget(p)], [Render, Effects] + [Tick, Register]);
      RunActions(h, t, [Render, Effects], [Tick, Register]);
      SettledAfter(h, t);
      var w := Run(h, t, [Render, Effects]);
      ThreeActions(h, w, Tick, Register, Register);
      ZeroNorm(h, Sub(p, p));
      assert Next(h, w, Tick).robots == Lone(s.robots.rs[0]);
    }
  }

  // ---------- Coincident robots ----------

  /** Robots i and j exist and share position and velocity. */
  predicate Twins(s: State, i: nat, j: nat) {
    && s.Live? && s.robots.Many?
    && i < |s.robots.rs| && j < |s.robots.rs|
    && s.robots.rs[i].position == s.robots.rs[j].position
    && s.robots.rs[i].velocity == s.robots.rs[j].velocity
  }

  ghost predicate DistinctIds(rs: seq<Robot>) {
    forall i, j :: 0 <= i < |rs| && 0 <= j < |rs| && rs[i].id == rs[j].id ==> i == j
  }

  ghost predicate Unseen(rs: seq<Robot>, r: Robot) {
    forall k :: 0 <= k < |rs| ==> rs[k].id != r.id
  }

  /** Observers at one place who are not in the list gather the same from it. */
  lemma {:induction false} SameView(h: Hypot, rs: seq<Robot>, r: Robot, o: Robot)
    requires r.position == o.position
    requires Unseen(rs, r) && Unseen(rs, o)
    ensures Boids.Gather(h, rs, r) == Boids.Gather(h, rs, o)
  {
    if rs != [] {
      SameView(h, rs[..|rs| - 1], r, o);
    }
  }

  /** A phantom observer at the place of robot i, with an id of its own, gathers what robot i
      gathers plus what robot i itself shows. */
  lemma PhantomView(h: Hypot, rs: seq<Robot>, i: nat, phantom: Robot)
    requires i < |rs| && DistinctIds(rs)
    requires Unseen(rs, phantom) && phantom.position == rs[i].position
    ensures Boids.Gather(h, rs, phantom)
         == Boids.Plus(Boids.Gather(h, rs, rs[i]), Boids.Seen(h, phantom.position, rs[i]))
  {
    var rest := Sequences.Remove(rs, i);
    forall k | 0 <= k < |rest| ensures rest[k].id != rs[i].id && rest[k].id != phantom.id {
      var l := if k < i then k else k + 1;
      assert rest[k] == rs[l];
    }
    SameView(h, rest, rs[i], phantom);
    Symmetry.GatherRemove(h, rs, i, rs[i]);
    Symmetry.GatherRemove(h, rs, i, phantom);
    BoidsRuns.PlusAssociative(Boids.Gather(h, rest, rs[i]), Boids.NOBODY, Boids.NOBODY);
  }

  lemma PlusCancels(a: Boids.Neighbours, b: Boids.Neighbours, c: Boids.Neighbours)
    requires Boids.Plus(a, c) == Boids.Plus(b, c)
    ensures a == b
  {
  }

  /** "Everybody but i" and "everybody but j" are different sums with the same value. */
  lemma TwinGather(h: Hypot, rs: seq<Robot>, i: nat, j: nat)
    requires i < |rs| && j < |rs| && GoodRobots(h, rs)
    requires rs[i].position == rs[j].position && rs[i].velocity == rs[j].velocity
    ensures Boids.Gather(h, rs, rs[i]) == Boids.Gather(h, rs, rs[j])
  {
    var phantom := Robot(-1, rs[i].position, ZERO);
    PhantomView(h, rs, i, phantom);
    PhantomView(h, rs, j, phantom);
    SameShown(h, phantom.position, rs[i], rs[j]);
    PlusCancels(Boids.Gather(h, rs, rs[i]), Boids.Gather(h, rs, rs[j]),
                Boids.Seen(h, phantom.position, rs[i]));
  }

  lemma SameShown(h: Hypot, p: Vec, r: Robot, o: Robot)
    requires r.position == o.position && r.velocity == o.velocity
    ensures Boids.Seen(h, p, r) == Boids.Seen(h, p, o)
  {
  }

  lemma {:induction false} TwinRepulsion(h: Hypot, rs: seq<Robot>, r: Robot, o: Robot)
    requires IsHypot(h)
    requires r.position == o.position
    requires forall k :: 0 <= k < |rs| && (rs[k].id == r.id || rs[k].id == o.id) ==> rs[k].position == r.position
    ensures PotentialField.Repulsion(h, rs, r) == PotentialField.Repulsion(h, rs, o)
  {
    if rs != [] {
      var front, last := rs[..|rs| - 1], rs[|rs| - 1];
      TwinRepulsion(h, front, r, o);
      Symmetry.UnfoldRepulsion(h, rs, r);
      Symmetry.UnfoldRepulsion(h, rs, o);
      if last.position == r.position {
        PotentialRuns.SubSelf(h, r.position);
        PotentialField.NoPush(h, r.position, last.position);
      }
    }
  }

  lemma TwinsTick(h: Hypot, s: State, i: nat, j: nat, goal: Vec, mode: SwarmType)
    requires IsHypot(h)
    requires Good(h, s) && Twins(s, i, j) && !Single(s.ref)
    ensures Twins(TickRobots(h, s, goal, mode), i, j)
  {
    var rs := s.robots.rs;
    if mode.BoidsMode? {
      TwinGather(h, rs, i, j);
      SameMove(h, rs[i], rs[j], Boids.Gather(h, rs, rs[i]), goal);
    } else {
      TwinRepulsion(h, rs, rs[i], rs[j]);
    }
  }

  lemma SameMove(h: Hypot, r: Robot, o: Robot, n: Boids.Neighbours, goal: Vec)
    requires r.position == o.position && r.velocity == o.velocity
    ensures var a, b := Boids.Move(h, r, n, goal), Boids.Move(h, o, n, goal);
            a.position == b.position && a.velocity == b.velocity
  {
    assert o == r.(id := o.id);
  }

  lemma {:induction false} TwinsRun(h: Hypot, s: State, i: nat, j: nat, actions: seq<Action>)
    requires IsHypot(h)
    requires Good(h, s) && Twins(s, i, j) && i < j && !SeekPending(s)
    ensures Twins(Run(h, s, actions), i, j)
    decreases |actions|
  {
    if actions != [] {
      var a := actions[0];
      if a.Tick? && s.timer.Armed? {
        TwinsTick(h, s, i, j, s.timer.goal, s.timer.mode);
      }
      GoodNext(h, s, a);
      SecureNext(h, s, a);
      TwinsRun(h, Next(h, s, a), i, j, actions[1..]);
    }
  }

  ghost predicate TwinsForever(h: Hypot, s: State, i: nat, j: nat) {
    forall actions: seq<Action> :: Twins(Run(h, s, actions), i, j)
  }

  /** Two coincident robots stay coincident through every continuation exactly when no `directSeek`
      is pending.  If one is, a tick, at most after the effects that are due, sends the whole list
      through it, which drops everybody but robot 0. */
  lemma TwinsForeverIff(h: Hypot, s: State, i: nat, j: nat)
    requires IsHypot(h)
    requires Good(h, s) && Twins(s, i, j) && i < j
    ensures TwinsForever(h, s, i, j) <==> !SeekPending(s)
  {
    if SeekPending(s) {
      var actions := if Single(s.ref) && s.timer.Armed? then [Tick] else [Effects, Tick];
      ThreeActions(h, s, actions[0], Tick, Tick);
      assert !Twins(Run(h, s, actions), i, j);
    } else {
      forall actions: seq<Action> ensures Twins(Run(h, s, actions), i, j) {
        TwinsRun(h, s, i, j, actions);
      }
    }
  }

  predicate AtOrigin(r: Robot) {
    r.position == ZERO && r.velocity == ZERO
  }

  /** The failing side is reached from the empty page: one robot is registered, sent to any goal
      and rendered; the second registration comes before its render, and one tick leaves a single
      robot. */
  lemma TwinsCanSplit(h: Hypot, goal: Vec)
    ensures var s := Run(h, INIT, SendOne(goal) + [Register]);
            var t := Run(h, s, [Tick]);
            && Twins(s, 0, 1) && Single(s.ref) && s.timer == Armed(goal, BoidsMode)
            && t.Live? && (t.robots.Many? ==> |t.robots.rs| == 1)
  {
    var first := Robot(0, ZERO, ZERO);
    var sent := Run(h, INIT, SendOne(goal));
    var s := Next(h, sent, Register);
    FirstRobotSent(h, goal, first);
    RunActions(h, INIT, SendOne(goal), [Register]);
    ThreeActions(h, sent, Register, Register, Register);
    assert s.robots.rs == [first, Robot(1, ZERO, ZERO)];
    ThreeActions(h, s, Tick, Tick, Tick);
  }

  /** Until the first tick, whatever else happens, the page is live and every registered robot
      rests at the origin. */
  lemma {:induction false} BeforeFirstTick(h: Hypot, s: State, setup: seq<Action>)
    requires Listed(s) && (forall i :: 0 <= i < |s.robots.rs| ==> AtOrigin(s.robots.rs[i]))
    requires Tick !in setup
    ensures var t := Run(h, s, setup);
            && Listed(t) && (forall i :: 0 <= i < |t.robots.rs| ==> AtOrigin(t.robots.rs[i]))
            && |t.robots.rs| == |s.robots.rs| + multiset(setup)[Register]
    decreases |setup|
  {
    if setup != [] {
      assert setup == [setup[0]] + setup[1..];
      assert setup[0] in setup;
      BeforeFirstTick(h, Next(h, s, setup[0]), setup[1..]);
    }
  }

  /** Any two robots registered before the first tick travel as one point for ever, through any
      mixture of modes, commands and later registrations, exactly when no `directSeek` is
      pending at that tick. */
  lemma RegisteredTogether(h: Hypot, setup: seq<Action>, i: nat, j: nat)
    requires IsHypot(h)
    requires Tick !in setup && i < j < multiset(setup)[Register]
    ensures TwinsForever(h, Run(h, INIT, setup), i, j) <==> !SeekPending(Run(h, INIT, setup))
  {
    var s := Run(h, INIT, setup);
    BeforeFirstTick(h, INIT, setup);
    GoodRun(h, INIT, setup);
    assert AtOrigin(s.robots.rs[i]) && AtOrigin(s.robots.rs[j]);
    TwinsForeverIff(h, s, i, j);
  }

  // ---------- A registered swarm under the potential field ----------

  lemma {:induction false} PageFollowsField(h: Hypot, s: State, rs: seq<Robot>, goal: Vec, k: nat)
    requires |rs| >= 2 && Settled(s, Many(rs), goal, PotentialMode)
    ensures Settled(Run(h, s, Frames(k)), Many(PotentialRuns.Run(h, rs, goal, k)), goal, PotentialMode)
    decreases k
  {
    if k > 0 {
      OneFrame(h, s, k);
      SettledFrame(h, s, rs, goal, PotentialMode);
      PageFollowsField(h, AfterFrame(h, s), PotentialField.Frame(h, rs, goal), goal, k - 1);
    }
  }

  /** End to end: however at least two robots are registered and sent before the first tick, if the
      last command is a goal more than 5 away and the last mode the potential field, all stand on
      one common point more than 4.6 and at most 5 from it after ceil((d - 5) / 0.4) frames, where d
      is the distance of the goal from the origin. */
  lemma SwarmArrives(h: Hypot, setup: seq<Action>, goal: Vec, k: nat)
    requires IsHypot(h)
    requires Sent(setup, goal, PotentialMode)
    requires Norm(h, goal) > 5.0 && 0.4 * k as real >= Norm(h, goal) - 5.0
    ensures var s := Run(h, INIT, setup + [Render, Effects] + Frames(k));
            && Listed(s) && |s.robots.rs| == multiset(setup)[Register]
            && PotentialRuns.Colocated(s.robots.rs, s.robots.rs[0].position)
            && 4.6 < Dist(h, goal, s.robots.rs[0].position) <= 5.0
  {
    var s, rs := SentSettled(h, setup, goal, PotentialMode);
    RunActions(h, INIT, setup + [Render, Effects], Frames(k));
    PageFollowsField(h, s, rs, goal, k);
    PotentialRuns.ColocatedApproach(h, rs, 0, ZERO, goal, k);
    PotentialRuns.DistanceBounds(Norm(h, goal), k);
    FromOrigin(h, goal, ZERO);
  }

  /** At least two robots are registered and the last command and mode are these, before the first
      tick. */
  ghost predicate Sent(setup: seq<Action>, goal: Vec, mode: SwarmType) {
    Tick !in setup && multiset(setup)[Register] >= 2 && LastTarget(setup, goal) && LastMode(setup, mode)
  }

  lemma SentSettled(h: Hypot, setup: seq<Action>, goal: Vec, mode: SwarmType) returns (s: State, rs: seq<Robot>)
    requires Sent(setup, goal, mode)
    ensures s == Run(h, INIT, setup + [Render, Effects]) && Settled(s, Many(rs), goal, mode)
    ensures |rs| == multiset(setup)[Register] && PotentialRuns.Colocated(rs, ZERO)
    ensures forall i :: 0 <= i < |rs| ==> AtOrigin(rs[i])
  {
    BeforeFirstTick(h, INIT, setup);
    LastDecides(h, setup, goal, mode);
    s, rs := Run(h, INIT, setup + [Render, Effects]), Run(h, INIT, setup).robots.rs;
    RunActions(h, INIT, setup, [Render, Effects]);
    SettledAfter(h, Run(h, INIT, setup));
  }

  // ---------- A registered swarm flocks ----------

  /** The potential field is neither chosen nor shown nor in a running timer. */
  predicate AllBoids(s: State) {
    s.Live? ==> s.mode.BoidsMode? && s.shown.mode.BoidsMode? && (s.timer.Armed? ==> s.timer.mode.BoidsMode?)
  }

  /** Several robots on one point, no faster than 0.22, on a page that will only flock. */
  ghost predicate Flocking(h: Hypot, s: State) {
    && Secure(s) && AllBoids(s) && GoodRobots(h, s.robots.rs)
    && Coincident.OnePoint(s.robots.rs, s.robots.rs[0].position, s.robots.rs[0].velocity)
    && Norm(h, s.robots.rs[0].velocity) <= 0.22
  }

  lemma FlockFrame(h: Hypot, rs: seq<Robot>, goal: Vec)
    requires IsHypot(h)
    requires |rs| >= 2 && GoodRobots(h, rs)
    requires Coincident.OnePoint(rs, rs[0].position, rs[0].velocity) && Norm(h, rs[0].velocity) <= 0.22
    ensures var next := Boids.Frame(h, rs, goal);
            && GoodRobots(h, next) && Norm(h, next[0].velocity) <= 0.22
            && Coincident.OnePoint(next, next[0].position, next[0].velocity)
  {
    assert rs[0].id != rs[1].id;
    Coincident.PackFrame(h, rs, rs[0].position, rs[0].velocity, goal);
    Coincident.PackSpeed(h, rs[0].position, rs[0].velocity, goal);
    GoodBoids(h, rs, goal);
  }

  lemma FlockNext(h: Hypot, s: State, a: Action)
    requires IsHypot(h)
    requires Flocking(h, s) && !a.Register? && a != SetMode(PotentialMode)
    ensures Flocking(h, Next(h, s, a))
  {
    SecureNext(h, s, a);
    if a.Tick? && s.timer.Armed? {
      FlockFrame(h, s.robots.rs, s.timer.goal);
    }
  }

  lemma {:induction false} FlockRun(h: Hypot, s: State, actions: seq<Action>)
    requires IsHypot(h)
    requires Flocking(h, s) && Register !in actions && SetMode(PotentialMode) !in actions
    ensures Flocking(h, Run(h, s, actions))
    decreases |actions|
  {
    if actions != [] {
      assert actions[0] in actions;
      FlockNext(h, s, actions[0]);
      FlockRun(h, Next(h, s, actions[0]), actions[1..]);
    }
  }

  lemma {:induction false} BoidsThroughout(h: Hypot, s: State, actions: seq<Action>)
    requires AllBoids(s) && SetMode(PotentialMode) !in actions
    ensures AllBoids(Run(h, s, actions))
    decreases |actions|
  {
    if actions != [] {
      assert actions[0] in actions;
      BoidsThroughout(h, Next(h, s, actions[0]), actions[1..]);
    }
  }

  /** However it is commanded and whenever it is rendered, a swarm of at least two that is
      registered before the first tick and only flocks stays on one point and never flies faster
      than 0.22, unless a `directSeek` is pending at that tick. */
  lemma SwarmNeverFast(h: Hypot, setup: seq<Action>, actions: seq<Action>)
    requires IsHypot(h)
    requires Tick !in setup && multiset(setup)[Register] >= 2 && !SeekPending(Run(h, INIT, setup))
    requires SetMode(PotentialMode) !in setup && SetMode(PotentialMode) !in actions && Register !in actions
    ensures var s := Run(h, INIT, setup + actions);
            && Listed(s) && |s.robots.rs| >= 2
            && (forall i :: 0 <= i < |s.robots.rs| ==>
                  && s.robots.rs[i].position == s.robots.rs[0].position
                  && Norm(h, s.robots.rs[i].velocity) <= 0.22)
  {
    var s := Run(h, INIT, setup);
    BeforeFirstTick(h, INIT, setup);
    GoodRun(h, INIT, setup);
    BoidsThroughout(h, INIT, setup);
    ZeroNorm(h, ZERO);
    assert AtOrigin(s.robots.rs[0]);
    FlockRun(h, s, actions);
    RunActions(h, INIT, setup, actions);
  }

  lemma {:induction false} PageFollowsFlock(h: Hypot, s: State, rs: seq<Robot>, goals: seq<Vec>, goal: Vec)
    requires |rs| >= 2 && Settled(s, Many(rs), goal, BoidsMode)
    requires forall i :: 0 <= i < |goals| ==> goals[i] == goal
    ensures Settled(Run(h, s, Frames(|goals|)), Many(BoidsRuns.Run(h, rs, goals)), goal, BoidsMode)
    decreases |goals|
  {
    if goals != [] {
      OneFrame(h, s, |goals|);
      SettledFrame(h, s, rs, goal, BoidsMode);
      PageFollowsFlock(h, AfterFrame(h, s), Boids.Frame(h, rs, goal), goals[1..], goal);
    }
  }

  /** End to end under flocking: a swarm sent from rest flies as one point straight at its goal, by
      0.07 to 0.12 in every frame, until it passes it. */
  lemma SwarmCruises(h: Hypot, setup: seq<Action>, goal: Vec, k: nat)
    requires IsHypot(h)
    requires Sent(setup, goal, BoidsMode)
    requires Norm(h, goal) > 0.0 && (k > 0 ==> Cruise.Travelled(true, 0.0, k - 1) < Norm(h, goal))
    ensures var s := Run(h, INIT, setup + [Render, Effects] + Frames(k));
            var way := Cruise.Travelled(true, 0.0, k);
            && Listed(s) && |s.robots.rs| == multiset(setup)[Register]
            && 0.07 * k as real <= way <= 0.12 * k as real
            && Coincident.OnePoint(s.robots.rs,
                                   Cruise.Place(goal, Normalize(h, goal), Norm(h, goal) - way),
                                   Scale(Normalize(h, goal), Cruise.Speed(true, 0.0, k)))
  {
    var s, rs := SentSettled(h, setup, goal, BoidsMode);
    var goals := seq(k, i => goal);
    RunActions(h, INIT, setup + [Render, Effects], Frames(k));
    GoodRun(h, INIT, setup + [Render, Effects]);
    PageFollowsFlock(h, s, rs, goals, goal);
    RestPack(h, rs, goal, ZERO, 0.0);
    Cruise.PackCruise(h, rs, goals, goal, Normalize(h, goal), Norm(h, goal), 0.0);
    Cruise.PackSpeeds(0.0, k);
  }

  lemma RestPack(h: Hypot, rs: seq<Robot>, goal: Vec, z: Vec, n: real)
    requires IsHypot(h)
    requires |rs| >= 2 && GoodRobots(h, rs) && Coincident.OnePoint(rs, z, z)
    requires z == ZERO && n == 0.0 && Norm(h, goal) > 0.0
    ensures Cruise.PackOnCourse(h, rs, goal, Normalize(h, goal), Norm(h, goal), n)
  {
    var u, d := Normalize(h, goal), Norm(h, goal);
    assert rs[0].id != rs[1].id;
    assert Sub(goal, z) == goal;
    Cruise.RestOnCourse(h, z, z, goal, u, d, n);
    assert z == Cruise.Place(goal, u, d);
  }
}
