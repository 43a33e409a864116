# SwarmBase: swarm dynamics and command protocol, modelled and proved in Dafny

SwarmBase steers a swarm of planar robots from a web page. A click sends a movement command to a
pallet on a parachain, which keeps a robot registry and one bounded queue of commands; the page
that clicked pulls the next command once its own one is finalised, and every page that sees the
pull event moves its robots frame by frame, in one of three modes. This project models

- **the vector algebra** (`Vectors.dfy`): `sub`, `add`, `scale`, `norm`, `normalize`, `limit`;
- **flocking** (`Boids.dfy`, `BoidsRuns.dfy`): the step of `moveToBoids`, the loop with its five
  accumulators, bounds, locality and whole runs;
- **flocking on one point and on the line of sight** (`Coincident.dfy`, `Cruise.dfy`): the swarm as
  it is after registration, and the exact speeds with which it, or a robot alone, flies at a goal;
- **two robots face to face** (`Pairs.dfy`): exact frames of both swarm modes;
- **the potential field** (`PotentialField.dfy`, `PotentialRuns.dfy`): the step of
  `moveToPotentialField`, its loop, cancellation of forces, and approach to the goal;
- **the single-robot mode** (`DirectSeek.dfy`): `directSeek`, including its zero-distance branch;
- **symmetries** of both swarm steps (`Symmetry.dfy`, `Isometry.dfy`);
- **the page state** (`Simulation.dfy`): robot list, target and mode, what the last render saw of
  them, the mirrored ref and the running timer, as a class and as a state machine over
  registrations, commands, mode switches, renders, effects and timer ticks;
- **the pallet** (`Pallet.dfy`): storage, calls, errors and events, as a class and as functions;
- **the client protocol** (`Protocol.dfy`): any number of pages with transactions and callbacks in
  flight, any interleaving, and losses; what descends from which click (`Ledger.dfy`).

`Sequences.dfy` holds the removal of a list entry, used by several of these.

Code that changes variables step by step is a method or a class, proved equal to a specification
function; the theorems are lemmas about those functions.

How the model reads the source:

- JavaScript numbers are exact reals. `Math.hypot` is a parameter `h` of every function; the only
  fact assumed of it, where one is needed, is `IsHypot(h)`: it is non-negative and its square is
  x*x + y*y. `NormUnique` shows that this determines the norm.
- The effect that arms the timer (`page.tsx:27-40`) depends on `robots`, and every frame replaces
  `robots`, so each rendered frame starts a new timer with `frame = 0`. The 120-frame cutoff
  therefore never ends a movement, and runs are unbounded here.
- The timer keeps the target and the mode of the render whose effect armed it (lines 30-33), while
  the updaters work on the current list. The dispatcher tests `robotsRef.current.length` (line 31),
  which an effect of that same render copies (lines 19-21). `Render` captures list, target and mode;
  `Effects` copies the ref and arms the timer; React runs the effects of one render before the next.
- `directSeek` returns `rs[0]` instead of a list at distance zero (line 48). The model keeps this:
  the list becomes `Lone(robot)`, and the next registration or tick throws (`Crashed`). So do the
  effects of a render that handed the bare robot to the canvas (line 389 passes the ref, and
  `RobotCanvas.tsx:68` walks over it).
- In the closed protocol all pages share one signer, as the development key is shared, the chain is
  linear, and each transaction has at most one finality callback. A click uses the robot list
  captured by the render whose closure runs.
- The pallet has the runtime's concrete types (u32 ids, tasks and coordinates); the capacity stays
  a parameter, which the runtime sets to 64.
- The repository's README mentions `pull_command` and `RobotRegistered`; the code has `pull_next`
  and two events. The comment at `page.tsx:65` says 30 px where the code repels below 20. The model
  follows the code.

Properties that are false as one would first state them, with their exact conditions:

- *A robot sent to a target can always continue.* It can if and only if its initial distance is not
  a multiple of 5 (`DirectSeek.NeverBreaksIff`, `Simulation.PageSurvivesIff`). The empty page reaches
  the failure with one robot and the target (3, 4) (`Simulation.CrashReachable`).
- *Coincident robots stay coincident.* They do in every continuation if and only if no `directSeek`
  is pending: the ref has length one while a timer runs, or the effects that are due will make it so
  (`Simulation.TwinsForeverIff`). The empty page gets there by registering a second robot between the
  render that armed the timer and the next one; one tick then leaves a single robot
  (`Simulation.TwinsCanSplit`).
- *A page survives whatever happens.* It does if and only if it holds at least two robots and no
  `directSeek` is pending (`Simulation.SurvivesAllIff`).
- *Enqueue and pull commute.* They do if and only if the queue is neither empty nor full, or the
  capacity is zero (`Pallet.EnqueuePullCommute`); both failing sides are reached from genesis
  (`Pallet.EnqueuePullCanClash`).
- *A click delivers its own command.* When nothing is outstanding and no step of the click is lost,
  it does if and only if the page shows a robot, robot 0 is registered, and the queue is empty (and
  may hold a command at all) (`Protocol.OwnCommandIff`). A click on a page without robots leaves its
  command in the queue (`Protocol.PullCanBeLost`), and a later click then delivers that one
  (`Protocol.WrongCommandDelivered`). In any serialised run, click n delivers command n - lag
  (`Protocol.DeliveryLag`), and the lag never decreases.

## Model

| member | source | states |
|---|---|---|
| Vectors.NormUnique | swarmbase-ui/app/lib/utils.ts:15 | the norm is the only non-negative root of x² + y², so no result depends on which hypotenuse function is supplied |
| Vectors.NormScale | swarmbase-ui/app/lib/utils.ts:14-15 | scaling by s multiplies the norm by the absolute value of s |
| Vectors.CauchySchwarz | swarmbase-ui/app/lib/utils.ts:15 | the dot product is at most the product of the norms |
| Vectors.Triangle | swarmbase-ui/app/lib/utils.ts:13-15 | the norm of a sum is at most the sum of the norms |
| Vectors.NormalizeIsScale | swarmbase-ui/app/lib/utils.ts:16-19 | a non-zero vector is normalised to length one, along itself |
| Vectors.LimitInDisc | swarmbase-ui/app/lib/utils.ts:21-24 | `limit` returns a vector of norm min(norm, max) |
| Vectors.LimitIsNearest | swarmbase-ui/app/lib/utils.ts:21-24 | `limit` returns the point of the disc of radius max nearest to its argument |
| Vectors.LimitNonExpansive | swarmbase-ui/app/lib/utils.ts:21-24 | `limit` never moves two vectors further apart |
| Boids.GatherNeighbours | swarmbase-ui/app/page.tsx:139-167 | the in-place loop over five accumulators computes the recursive sum over all robots with another id |
| Boids.Seek | swarmbase-ui/app/page.tsx:126-137 | the seek steering, zero at the goal |
| Boids.Finalize | swarmbase-ui/app/page.tsx:171-176 | normalise, scale to speed 4, subtract the velocity, limit to 0.1 |
| Boids.Alignment | swarmbase-ui/app/page.tsx:178-188 | the alignment steering, with the accumulator left alone when nobody was counted |
| Boids.Cohesion | swarmbase-ui/app/page.tsx:190-202 | the cohesion steering: sum of positions, divided, then made relative |
| Boids.StepRobot | swarmbase-ui/app/page.tsx:125-229 | the next state of one robot is the specified function of the list, the robot and the target |
| Boids.MoveToBoids | swarmbase-ui/app/page.tsx:114-231 | a frame steps every robot from the same old list |
| Boids.CountsCoverSums | swarmbase-ui/app/page.tsx:142-162 | the two counters are always equal, and a zero counter goes with untouched sums |
| Boids.VisibleExactly | swarmbase-ui/app/page.tsx:146-163 | who is counted: exactly the listed robots with another id at distance below 50; who repels: those at a positive distance below 20 |
| Boids.VisibleOften | swarmbase-ui/app/page.tsx:146-161 | every visible robot is counted as often as it is listed |
| Boids.CrowdingOften | swarmbase-ui/app/page.tsx:146-166 | every crowding robot repels as often as it is listed |
| Boids.VisibleSums | swarmbase-ui/app/page.tsx:151-161 | the accumulators are the number of visible robots and the sums of their velocities and positions |
| Boids.CrowdingSum | swarmbase-ui/app/page.tsx:162-166 | the separation accumulator is the sum of unit vectors away from the crowding robots |
| Boids.ForceMeaning | swarmbase-ui/app/page.tsx:169-202 | alignment steers along the mean velocity of the visible robots, cohesion towards their mean position, separation away from crowding robots; the first two vanish when nobody is visible |
| Boids.SteerIsBest | swarmbase-ui/app/page.tsx:171-176 | of all forces of norm at most 0.1, the steering comes nearest to turning the velocity into full speed in the wanted direction |
| Boids.SeekMeaning | swarmbase-ui/app/page.tsx:126-137 | away from the goal the seek force has norm at most 0.1, and of all such forces it comes nearest to turning the velocity into full speed towards the goal |
| Boids.SeekThere | swarmbase-ui/app/page.tsx:126-137 | at the goal the seek force is zero |
| Boids.SteeringBounds | swarmbase-ui/app/page.tsx:126-202 | each of the four steering vectors has norm at most 0.1 |
| Boids.AccelerationBound | swarmbase-ui/app/page.tsx:205-216 | the weighted acceleration has norm at most 0.47 |
| Boids.CombineTight | swarmbase-ui/app/page.tsx:205-216 | the weights add up to 4.7: four equal forces combine to exactly 4.7 times one of them |
| Boids.BoundAttained | swarmbase-ui/app/page.tsx:126-216 | a list, a robot at rest and a target for which the acceleration has norm exactly 0.47, in every direction: the bound is attained |
| Boids.FrameLaw | swarmbase-ui/app/page.tsx:169-228 | after a frame the velocity is the old one plus 1.5 times separation from the crowding robots, alignment with the mean velocity and cohesion to the mean position of the visible ones, and 1.2 times the seek force, limited to 4; the robot moves by it |
| Pairs.TwoAtRest | swarmbase-ui/app/page.tsx:139-228 | of two robots at rest the one on its goal flies off at 0.05 when closer than 20, comes nearer at 0.1 from 20 to 50, and stays from 50 on |
| Boids.FrameBounds | swarmbase-ui/app/page.tsx:217-228 | after a frame the id is kept, the speed is at most 4, the robot moved by exactly its new velocity, and a velocity within the limit changed by at most 0.47 |
| BoidsRuns.FrameLocal | swarmbase-ui/app/page.tsx:146-167 | clusters at least 50 apart step as if each were alone |
| BoidsRuns.RunDecomposes | swarmbase-ui/app/page.tsx:114-231 | clusters at least 50 + 8(k - 1) apart spend k frames as if each were alone, for any sequence of goals; ids need not be distinct |
| BoidsRuns.AloneAtGoal | swarmbase-ui/app/page.tsx:169-219 | alone on its goal a robot only brakes: a speed up to 0.1 is halved, a higher one v becomes the absolute value of v - 0.15, cut at 4 |
| BoidsRuns.AloneFromRest | swarmbase-ui/app/page.tsx:126-219 | alone and at rest, a robot starts straight at its goal with speed 0.12 |
| BoidsRuns.AloneFrame | swarmbase-ui/app/page.tsx:126-219 | alone, a speed v becomes at most max(0.17, v - 0.03) whatever the goal |
| BoidsRuns.AloneRun | swarmbase-ui/app/page.tsx:126-219 | a robot that nobody comes within 50 of during k frames has speed at most max(0.17, v - 0.03k) after them, for any sequence of goals |
| BoidsRuns.FarStaysAlone | swarmbase-ui/app/page.tsx:126-219 | a robot at least 50 + 8(k - 1) from all others has nobody within 50 during k frames |
| Coincident.CompanionForces | swarmbase-ui/app/page.tsx:142-202 | on one point with companions, separation and cohesion are the same brake and alignment pushes along the own velocity, however many companions there are |
| Coincident.PackFrame | swarmbase-ui/app/page.tsx:124-230 | a swarm with one position and one velocity keeps one position and one velocity |
| Coincident.PackSpeed | swarmbase-ui/app/page.tsx:126-219 | with companions on its spot, a speed v becomes at most max(0.22, v - 0.03) whatever the goal |
| Coincident.PackRun | swarmbase-ui/app/page.tsx:124-230 | such a swarm stays on one point for any sequence of goals, with speed at most max(0.22, v - 0.03k) after k frames |
| Cruise.AloneAttained | swarmbase-ui/app/page.tsx:126-219 | both sides of the bound max(0.17, v - 0.03) for a robot alone are attained |
| Cruise.PackAttained | swarmbase-ui/app/page.tsx:126-219 | a pack at speed v up to 0.1 flying at its goal gets speed 0.22 - 1.5v, so 0.22 is the best bound |
| Cruise.AloneCruise | swarmbase-ui/app/page.tsx:126-228 | flying at its goal, a robot nobody comes near keeps its line, with the iterated speeds, until it passes the goal |
| Cruise.AloneFromRestRun | swarmbase-ui/app/page.tsx:126-228 | from rest it flies straight at its goal; after k >= 2 frames its speed is 0.08 + 0.01(-1/2)^(k - 2), and the way it has come is given exactly |
| Cruise.PackCruise | swarmbase-ui/app/page.tsx:124-230 | flying at its goal, a swarm on one point keeps its line, with the iterated speeds, until it passes the goal |
| Cruise.PackSpeeds | swarmbase-ui/app/page.tsx:124-230 | from rest the speed of such a swarm stays between 0.07 and 0.12 |
| PotentialField.Attract | swarmbase-ui/app/page.tsx:74-83 | the attraction of one robot |
| PotentialField.Accumulate | swarmbase-ui/app/page.tsx:86-96 | the callback adds the push of one neighbour to the accumulator, and nothing for the robot itself, at distance zero or out of range |
| PotentialField.SumRepulsion | swarmbase-ui/app/page.tsx:84-96 | the loop computes the recursive sum of pushes |
| PotentialField.MoveToPotentialField | swarmbase-ui/app/page.tsx:63-112 | a frame moves every robot from the same old list and leaves the stored velocities alone |
| PotentialField.PushLaw | swarmbase-ui/app/page.tsx:88-95 | within range the push has length 300/d² and points straight away from the neighbour |
| PotentialField.CloseExactly | swarmbase-ui/app/page.tsx:86-92 | who pushes: exactly the listed robots with another id at a positive distance below 20, as often as they are listed |
| PotentialField.FieldLaw | swarmbase-ui/app/page.tsx:74-109 | a frame moves a robot by 0.8 times the pull of the goal (none within 5, else min(0.1d, 5) along the line of sight) plus the inverse-square pushes of the close robots, and keeps its id and stored velocity |
| Pairs.TwoRepel | swarmbase-ui/app/page.tsx:84-109 | two robots at distance d below 20, both within 5 of the goal, push each other apart by 240/d² each |
| PotentialField.PairAntisymmetric | swarmbase-ui/app/page.tsx:86-96 | two robots push each other with opposite vectors |
| PotentialField.RepulsionsCancel | swarmbase-ui/app/page.tsx:84-96 | over the whole swarm the repulsions of a frame sum to zero |
| PotentialField.MomentumOfFrame | swarmbase-ui/app/page.tsx:98-109 | the sum of positions changes by exactly 0.8 times the sum of attractions |
| PotentialField.CentroidSpeed | swarmbase-ui/app/page.tsx:72-111 | the centroid moves at most 4 in a frame |
| PotentialField.CentroidRests | swarmbase-ui/app/page.tsx:78-83 | the centroid does not move when every robot is within 5 of the goal |
| PotentialField.DisplacementUnbounded | swarmbase-ui/app/page.tsx:91-109 | for every bound some swarm has a robot that moves further than it in one frame |
| PotentialRuns.RunKeeps | swarmbase-ui/app/page.tsx:103-109 | no potential-field run changes an id or a stored velocity |
| PotentialRuns.UndisturbedFrame | swarmbase-ui/app/page.tsx:74-107 | with no pushing neighbour the distance d > 5 becomes max(0.92d, d - 4), on the line of sight, without overshooting; within 5 the robot rests |
| PotentialRuns.DistanceBounds | swarmbase-ui/app/page.tsx:65-107 | iterated from d > 5, the distance stays above 4.6 and at most d, is at most 5 after ceil((d - 5)/0.4) frames, and falls by exactly 4 per frame while at least 50 |
| PotentialRuns.UndisturbedApproach | swarmbase-ui/app/page.tsx:72-111 | a robot undisturbed for k frames is at the k-th iterated distance, whatever the others do |
| PotentialRuns.ColocatedApproach | swarmbase-ui/app/page.tsx:91-107 | a swarm standing on one point stays on one point, is never disturbed, and follows the iterated distances in every run |
| DirectSeek.MoveDirectly | swarmbase-ui/app/page.tsx:42-61 | the updater of the single-robot mode, with the bare robot returned at distance zero |
| DirectSeek.SeekVelocity | swarmbase-ui/app/page.tsx:45-58 | away from the goal the robot keeps its id and is displaced by the velocity it stores, 5 along the line of sight |
| DirectSeek.SignedStep | swarmbase-ui/app/page.tsx:45-57 | away from the goal, the distance d becomes the absolute value of d - 5 |
| DirectSeek.SeekRun | swarmbase-ui/app/page.tsx:42-61 | from distance 5q + rest, zero included: the list breaks within k frames iff rest is 0 and q < k; otherwise the robot is on its starting line at distance d - 5k up to frame q, then alternates between two points at distances 5 - rest and rest, at speed 5 after any frame |
| DirectSeek.NeverBreaksIff | swarmbase-ui/app/page.tsx:47-48 | no number of frames breaks the list iff the initial distance is no multiple of 5 |
| Symmetry.ShiftBoidsFrame | swarmbase-ui/app/page.tsx:124-230 | translating robots and goal translates the next flocking state, velocities unchanged |
| Symmetry.ShiftBoidsRun | swarmbase-ui/app/page.tsx:124-230 | the same for whole runs with a goal per frame |
| Symmetry.ShiftPotentialFrame | swarmbase-ui/app/page.tsx:72-111 | translating robots and goal translates the next potential-field state |
| Symmetry.ShiftPotentialRun | swarmbase-ui/app/page.tsx:72-111 | the same for potential-field runs of any length |
| Symmetry.PermutedBoidsFrame | swarmbase-ui/app/page.tsx:146-230 | listing the robots in another order gives every robot the same next flocking state |
| Symmetry.PermutedBoidsRun | swarmbase-ui/app/page.tsx:146-230 | the multiset of robots after any flocking run does not depend on the order of the list |
| Symmetry.PermutedPotentialFrame | swarmbase-ui/app/page.tsx:73-110 | listing the robots in another order gives every robot the same next potential-field state |
| Symmetry.PermutedPotentialRun | swarmbase-ui/app/page.tsx:73-110 | the multiset of robots after any potential-field run does not depend on the order of the list |
| Isometry.TurnBoidsFrame | swarmbase-ui/app/page.tsx:124-230 | rotating or reflecting positions, velocities and goal rotates or reflects the next flocking state |
| Isometry.TurnBoidsRun | swarmbase-ui/app/page.tsx:124-230 | the same for whole runs |
| Isometry.TurnPotentialFrame | swarmbase-ui/app/page.tsx:72-111 | rotating or reflecting the picture rotates or reflects the next potential-field state |
| Isometry.TurnPotentialRun | swarmbase-ui/app/page.tsx:72-111 | the same for potential-field runs of any length |
| Simulation.Page.RegisterRobot | swarmbase-ui/app/page.tsx:301-304 | appends a robot at rest at the origin with the list length as id; throws on a broken list |
| Simulation.Page.OnMoveCommand | swarmbase-ui/app/page.tsx:23-25 | replaces the target and nothing else |
| Simulation.Page.SetSwarmType | swarmbase-ui/app/page.tsx:370-377 | replaces the mode and nothing else |
| Simulation.Page.RenderPage | swarmbase-ui/app/page.tsx:9-17 | after the effects that are due, captures list, target and mode, and the ref for the canvas |
| Simulation.Page.RunEffects | swarmbase-ui/app/page.tsx:19-40 | copies the rendered list into the ref and arms the timer with the rendered target and mode, none without a target; throws when the canvas was given a bare robot |
| Simulation.Page.OnTimer | swarmbase-ui/app/page.tsx:27-40 | without a running timer nothing; otherwise the movement chosen by the length of the ref and the captured mode, towards the captured target, applied to the current list |
| Simulation.EditsInvisible | swarmbase-ui/app/page.tsx:27-40 | commands and mode buttons change nothing but the target and mode that the next render captures: all ticks, effects and registrations before it go on with the captured ones |
| Simulation.CommandArrives | swarmbase-ui/app/page.tsx:19-40 | a new target and mode reach a moving swarm neither at the next tick nor after the next render, but after the effects of that render |
| Simulation.EffectsOnce | swarmbase-ui/app/page.tsx:19-40 | effects that have run do nothing more, and a render does not lose those that are due |
| Simulation.JoinsAtOnce | swarmbase-ui/app/page.tsx:301-304 | a robot registered while the swarm moves starts at rest at the origin with the list length as id and takes part in the next tick before any render has seen it |
| Simulation.LastDecides | swarmbase-ui/app/page.tsx:23-25 | after any actions the target is the last one commanded and the mode the last one chosen |
| Simulation.Reachable | swarmbase-ui/app/page.tsx:30-33 | after any mix of actions from the empty page robot i has id i, ids are distinct, and every speed is at most 5 |
| Simulation.BreakIff | swarmbase-ui/app/page.tsx:19-48 | in every reachable state, the exact actions that break the list and those that throw, with the target of the running timer |
| Simulation.PageFollowsSeek | swarmbase-ui/app/page.tsx:30-61 | with one robot the page follows the `directSeek` run and throws one frame after it broke the list |
| Simulation.PageSurvivesIff | swarmbase-ui/app/page.tsx:31-48 | a page with one robot and a fixed target runs forever iff the initial distance is no multiple of 5 |
| Simulation.CrashReachable | swarmbase-ui/app/page.tsx:27-48 | from the empty page, one robot registered, sent to (3, 4) and rendered is alive after two frames and throws in the third |
| Simulation.SurvivesAllIff | swarmbase-ui/app/page.tsx:27-61 | a reachable page survives every continuation iff it holds at least two robots and no `directSeek` is pending |
| Simulation.TwinGather | swarmbase-ui/app/page.tsx:146-167 | coincident robots gather the same although each skips a different entry |
| Simulation.TwinsRun | swarmbase-ui/app/page.tsx:19-40 | robots with equal position and velocity stay equal through any actions when no `directSeek` is pending |
| Simulation.TwinsForeverIff | swarmbase-ui/app/page.tsx:19-59 | they stay equal in every continuation iff the ref has not length one under a running timer, nor will after the effects that are due |
| Simulation.TwinsCanSplit | swarmbase-ui/app/page.tsx:19-59 | from the empty page, a robot is registered, sent to any goal and rendered; a second one registered before its render is lost, or the list is broken, by one tick |
| Simulation.RegisteredTogether | swarmbase-ui/app/page.tsx:301-304 | any two robots registered before the first tick, whatever else precedes it, travel as one point through all later actions iff no `directSeek` is pending at that tick |
| Simulation.PageFollowsField | swarmbase-ui/app/page.tsx:19-40 | in potential-field mode, with at least two robots, ticks, renders and effects follow the potential-field run |
| Simulation.SwarmArrives | swarmbase-ui/app/page.tsx:63-112 | at least two robots, registered and sent in any way before the first tick, to a goal at distance d > 5, stand on one point between 4.6 and 5 from it after ceil((d - 5)/0.4) frames |
| Simulation.SwarmNeverFast | swarmbase-ui/app/page.tsx:114-231 | a swarm of at least two, registered before the first tick with no `directSeek` pending, that only flocks stays on one point and never exceeds speed 0.22, through any commands, renders and ticks |
| Simulation.PageFollowsFlock | swarmbase-ui/app/page.tsx:19-40 | in flocking mode, with at least two robots, ticks, renders and effects follow the flocking run |
| Simulation.SwarmCruises | swarmbase-ui/app/page.tsx:114-231 | at least two robots, registered and sent in any way before the first tick, fly as one point straight at the goal, 0.07 to 0.12 per frame, until they pass it |
| Pallet.Storage.RegisterRobot | pallets/swarm-robot-pallet/src/lib.rs:115-119 | adds the id to the registry and nothing else, for signed origins |
| Pallet.Storage.EnqueueCommand | pallets/swarm-robot-pallet/src/lib.rs:122-132 | appends the command and its event, or fails with `QueueFull` and changes nothing |
| Pallet.Storage.PullNext | pallets/swarm-robot-pallet/src/lib.rs:135-159 | checks registration, then emptiness; removes the first command and deposits it with its coordinate |
| Pallet.ErrorsExact | pallets/swarm-robot-pallet/src/lib.rs:113-160 | which error every call returns in every state, with the origin checked before the registration and the registration before the queue; a failed call changes nothing |
| Pallet.ExecConserves | pallets/swarm-robot-pallet/src/lib.rs:113-160 | every call keeps conservation and the capacity; a failed call changes neither storage nor events |
| Pallet.FifoConservation | pallets/swarm-robot-pallet/src/lib.rs:122-159 | from genesis, pulled commands followed by the queue equal the enqueued commands, in order |
| Pallet.RegistryExact | pallets/swarm-robot-pallet/src/lib.rs:115-119 | an id is registered iff some signed call registered it |
| Pallet.EventSoundness | pallets/swarm-robot-pallet/src/lib.rs:147-157 | each pull event carries the command of the matching earlier enqueue event, coordinate c iff that command was `GoToLocation(c)`, and the id of a robot registered by a call before the one that deposited it |
| Pallet.PullerRegistered | pallets/swarm-robot-pallet/src/lib.rs:137-140 | every successful pull call names a robot registered by an earlier call |
| Pallet.RunRefines | pallets/swarm-robot-pallet/src/lib.rs:83-89 | the stored vector refines an append-only log with two counters never further apart than the capacity; results agree, and the log is the event history |
| Pallet.Drain | pallets/swarm-robot-pallet/src/lib.rs:142-145 | the i-th pull by registered robots succeeds iff i < m for m pending commands, in order; later ones fail with `QueueEmpty` |
| Pallet.EnqueuePullCommute | pallets/swarm-robot-pallet/src/lib.rs:122-159 | enqueue and a registered pull commute iff the queue is neither empty nor full, or the capacity is zero |
| Pallet.EnqueuePullCanClash | pallets/swarm-robot-pallet/src/lib.rs:122-159 | for every positive capacity calls from genesis lead to an empty and to a full queue on which enqueue and pull do not commute |
| Pallet.RegisterCommutes | pallets/swarm-robot-pallet/src/lib.rs:115-140 | a registration commutes with every call except a pull by the same, not yet registered id |
| Pallet.SwapAdjacent | pallets/swarm-robot-pallet/src/lib.rs:113-160 | swapping adjacent commuting calls in any sequence keeps the final storage and every call's result |
| Pallet.HoistRegistration | pallets/swarm-robot-pallet/src/lib.rs:115-140 | a registration may move to the front of a block without changing state, events or results iff the block holds no pull that it blocks: a signed one by the same id, while that id is not registered, with a signed registration |
| Protocol.Network.RegisterRobot | swarmbase-ui/app/page.tsx:287-290 | submits a registration with the list length the closure saw as id |
| Protocol.Network.AddRobot | swarmbase-ui/app/page.tsx:301-304 | after the submission the robot joins the local list, whether or not the transaction is ever executed |
| Protocol.Network.ExecuteRegister | pallets/swarm-robot-pallet/src/lib.rs:115-119 | an included registration registers its id on the chain |
| Protocol.Network.HandleCanvasClick | swarmbase-ui/app/page.tsx:307-316 | submits an enqueue and keeps the captured first robot |
| Protocol.Network.ExecuteEnqueue | swarmbase-ui/app/page.tsx:317-320 | a successful enqueue leaves a finality callback, a failed one only an error |
| Protocol.Network.OnFinalized | swarmbase-ui/app/page.tsx:321-341 | the callback pulls with the captured first robot, or gives up when the captured list was empty |
| Protocol.Network.ExecutePull | swarmbase-ui/app/page.tsx:339-351 | a pull executes; a failed one is lost |
| Ledger.IncludeOwn | swarmbase-ui/app/page.tsx:313-320 | including the k-th enqueue in flight enqueues its own command iff there is room, takes exactly it out of flight, and hands its own captured robot to the callback |
| Ledger.CommandLedger | swarmbase-ui/app/page.tsx:307-317 | over every run the enqueued commands, those in flight and the refused or dropped ones are, as a multiset, the commands of the clicks |
| Ledger.StepWork | swarmbase-ui/app/page.tsx:307-352 | a step begins one click's work, ends one click's, or moves one along with its own command and captured robot |
| Ledger.WorkLedger | swarmbase-ui/app/page.tsx:307-352 | over every run each transaction, callback and pull descends from its own click, and each click is accounted for once |
| Ledger.RegistrationLedger | swarmbase-ui/app/page.tsx:283-304 | over every run the registrations in flight, executed and dropped are those submitted, with the list lengths their closures saw |
| Ledger.RegisteredExactly | pallets/swarm-robot-pallet/src/lib.rs:115-119 | the chain has registered exactly the ids of the executed registrations |
| Ledger.LocalList | swarmbase-ui/app/page.tsx:287-304 | a page's list and its pending additions grow by its own registrations only |
| Ledger.RegisteredInOrder | swarmbase-ui/app/page.tsx:283-304 | n robots registered one after the other get the ids 0 to n - 1 on the chain and on the page |
| Protocol.StepAccounts | swarmbase-ui/app/page.tsx:307-352 | every step keeps: queue length = pulls in flight + callbacks to come + lost pulls; the lag never decreases |
| Protocol.RunAccounts | swarmbase-ui/app/page.tsx:307-352 | the same for every run of any number of pages; lost pulls never exceed the capacity |
| Protocol.NeverQueueEmpty | swarmbase-ui/app/page.tsx:332-341 | in every reachable state a pull succeeds iff its robot is registered, so it never meets `QueueEmpty` |
| Protocol.DeliveredIndex | pallets/swarm-robot-pallet/src/lib.rs:142-145 | a pull delivers the command whose index is the number enqueued, less the lag, less what is outstanding |
| Protocol.DeliveryLag | swarmbase-ui/app/page.tsx:313-352 | with serialised clicks the pull triggered by enqueue n delivers command n - lag |
| Protocol.ClickPullsFront | swarmbase-ui/app/page.tsx:307-352 | a click with nothing outstanding, a robot on the page and on the chain, and room in the queue deposits its enqueue and a pull of the front of the queue |
| Protocol.OwnCommandIff | swarmbase-ui/app/page.tsx:307-352 | with nothing outstanding, the click followed by inclusion, finality and pull delivers its own entry iff the page has a robot, robot 0 is registered, and the queue is empty and has a positive capacity; the queue is empty iff nothing was ever lost |
| Protocol.PullCanBeLost | swarmbase-ui/app/page.tsx:313-324 | a page that clicks before it has a robot ends with one lost pull, its command queued and nothing outstanding |
| Protocol.WrongCommandDelivered | swarmbase-ui/app/page.tsx:307-352 | a serialised run in which the page that clicks b delivers the earlier command a |
| Protocol.StuckForever | swarmbase-ui/app/page.tsx:316-324 | once lost and silent pulls fill the capacity, no continuation issues a pull, the full queue keeps the same commands, and no event is deposited |
| Protocol.LossesAbsorb | swarmbase-ui/app/page.tsx:316-341 | lost pulls never exceed the capacity, and when they equal it the system is stuck for ever |
| Protocol.DeadIffStuck | swarmbase-ui/app/page.tsx:316-341 | in any reachable state, no continuation ever has a pull in flight, and no continuation ever delivers a command, iff lost and silent pulls add up to the capacity |

## Left out

- Floating-point rounding, infinities and NaN: numbers are exact reals, so sums may be reordered.
- The existence of square roots: Dafny's reals come without completeness, so `IsHypot` stays a hypothesis.
- A timer that ticks 120 times without a render in between stops in the source; here it goes on.
- An updater that throws does so here when it is queued; React runs it with the next render.
- Rendering, tweening, the command log and layout (`RobotCanvas.tsx`, `CommandLog.tsx`, `layout.tsx`): user interface.
- The websocket connection, keys, nonces, signing and the text form of events: input and output; only the order of submit, execute and callback is kept.
- The event subscription that sets the target is one action, `Retarget`, with any goal: linking it to the pallet's log would tie robot motion to block times that the source does not fix.
- The spinner state `loading` and the log messages: they influence nothing that is modelled.
- Transactions of other accounts and forks: the protocol is closed and its chain linear.
- Weights, SCALE encoding, and origins other than signed or not: framework behaviour.
- The node, the XCM configuration, runtime APIs, genesis presets and fee constants: wiring of the SDK.
- The template pallet: one stored number and a checked increment would add only easy members.
